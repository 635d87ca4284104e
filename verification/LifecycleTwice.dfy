/** The other direction: after a step that is not a single one, a connection can close twice. */
module LifecycleTwice {
  import opened Registry
  import opened Dispatch
  import opened Lifecycle
  import opened LifecycleInv
  import opened LifecycleSteps
  import opened LifecycleRuns
  import opened LifecycleOnce

  /** A possible future in which no further step is a doubled dispatch or a reopening send. */
  ghost predicate Continues(w: World, run: seq<Label>)
    requires Sound(w)
  {
    Executes(w, run) && TimelyRun(w, run) && SingleRun(w, run)
  }

  /** From here nothing can close twice without another step of the two bad kinds. */
  ghost predicate Harmless(w: World)
    requires Sound(w)
  {
    forall run | Continues(w, run) :: ClosedOnce(Final(w, run))
  }

  /** Some connection can close twice from here. */
  ghost predicate Doomed(w: World)
    requires Sound(w)
  {
    exists run | Continues(w, run) :: !ClosedOnce(Final(w, run))
  }

  lemma DoomedNow(w: World, c: nat)
    requires Sound(w) && c < |w.conns| && w.conns[c].closes > 1
    ensures Doomed(w)
  {
    hide Sound;
    assert Continues(w, []) && Closes(Final(w, []), c) > 1;
  }

  lemma DoomedStep(w: World, a: Label)
    requires Sound(w) && Enabled(w, a) && TimelyLabel(w, a) && SingleLabel(w, a) && Doomed(Apply(w, a))
    ensures Doomed(w)
  {
    hide Sound, Enabled, Apply, TimelyLabel, SingleLabel, ClosedOnce;
    var w' := Apply(w, a);
    var rest :| Continues(w', rest) && !ClosedOnce(Final(w', rest));
    var run := [a] + rest;
    assert run[0] == a && run[1..] == rest;
    assert Continues(w, run) && Final(w, run) == Final(w', rest);
  }

  // ---------------------------------------------------------------- a dispatch that closes

  lemma CloseCounts(w: World, c: nat)
    requires Sound(w) && c < |w.conns|
    ensures var r := HandleClose(w, c);
            && |r.conns| == |w.conns| && |r.loops| == |w.loops| && r.gone == w.gone
            && r.conns[c].closes == w.conns[c].closes + 1
            && forall i | 0 <= i < |w.loops| :: r.loops[i].phase == w.loops[i].phase
  {
    hide LoopSound, Name, HandleClose, SetEvents;
    HandleCloseShape(w, c);
  }

  lemma WriteCounts(w: World, c: nat, o: Outcome)
    requires Sound(w) && c < |w.conns|
    ensures var r := HandleWrite(w, c, o);
            && r.conns == w.conns && |r.loops| == |w.loops| && r.gone == w.gone
            && forall i | 0 <= i < |w.loops| :: r.loops[i].phase == w.loops[i].phase
  {
    hide LoopSound, SetEvents;
  }

  /** Loop `l` is handling `c` and still has to make the callbacks `todo`. */
  ghost predicate Busy(w: World, l: nat, c: nat, todo: seq<Callback>, eof: bool) {
    && Sound(w) && !w.gone && l < |w.loops| && c < |w.conns|
    && w.loops[l].phase.Handling? && w.loops[l].phase.c == c
    && w.loops[l].phase.todo == todo && w.loops[l].phase.eof == eof
  }

  lemma BusyStep(w: World, l: nat, c: nat, todo: seq<Callback>, eof: bool)
    requires Busy(w, l, c, todo, eof) && todo != []
    ensures Enabled(w, RunCallback(l, Quiet))
    ensures var r := Apply(w, RunCallback(l, Quiet));
            && Busy(r, l, c, todo[1..], eof)
            && r.conns[c].closes == w.conns[c].closes + if Closing(todo[0], eof) then 1 else 0
  {
    hide LoopSound, HandleClose, HandleWrite;
    var w1 := SetPhase(w, l, w.loops[l].phase.(todo := todo[1..]));
    assert Sound(w1) by { BusySound(w, l); }
    CloseCounts(w1, c);
    WriteCounts(w1, c, Quiet);
  }

  lemma BusySound(w: World, l: nat)
    requires Sound(w) && l < |w.loops| && w.loops[l].phase.Handling? && w.loops[l].phase.todo != []
    ensures Sound(SetPhase(w, l, w.loops[l].phase.(todo := w.loops[l].phase.todo[1..])))
  {
    assert LoopSound(w.loops[l], |w.conns|);
  }

  /** The callbacks run to their end. */
  lemma {:induction false} BusyDoomed(w: World, l: nat, c: nat, todo: seq<Callback>, eof: bool)
    requires Sound(w) && Busy(w, l, c, todo, eof) && w.conns[c].closes + CountClosing(todo, eof) > 1
    ensures Doomed(w)
    decreases |todo|
  {
    hide Sound, Enabled, Apply, Doomed;
    if todo == [] {
      DoomedNow(w, c);
    } else {
      BusyStep(w, l, c, todo, eof);
      BusyDoomed(Apply(w, RunCallback(l, Quiet)), l, c, todo[1..], eof);
      DoomedStep(w, RunCallback(l, Quiet));
    }
  }

  lemma DoubledDoomed(w: World, l: nat, eof: bool)
    requires Sound(w) && Enabled(w, BeginEvent(l, eof)) && !SingleLabel(w, BeginEvent(l, eof)) && Inv(w)
    ensures Doomed(Apply(w, BeginEvent(l, eof)))
  {
    hide Views, Agreement, OpenFdsDistinct, TasksPlaced, NamesInv, GoneInv, DispatchInv, Owned, Callbacks;
    hide CountClosing, Doomed;
    var active := w.loops[l].phase.active;
    HeadUndestroyed(w, l);
    UndestroyedOwned(w, active[0].c);
    DispatchClosesOnceIff(active[0].revents, eof);
    var w' := Apply(w, BeginEvent(l, eof));
    BusyDoomed(w', l, active[0].c, Callbacks(active[0].revents), eof);
  }

  // ---------------------------------------------------------------- a send that reopens

  /** A closed connection of the running loop `l` is registered, and its destruction is not in this batch. */
  ghost predicate Reopened(w: World, l: nat, c: nat) {
    && Inv(w) && !w.gone && c < |w.conns| && l < |w.loops| && w.conns[c].loop == l
    && w.conns[c].closes > 0 && w.conns[c].destroyed == 0 && w.poller.chans[c].index == Added
  }

  /** No task closes a connection, and none touches a batch. */
  lemma TaskQuiet(w: World, t: Task, o: Outcome)
    requires Sound(w) && t.c < |w.conns|
    ensures var r := RunOne(w, t, o);
            && |r.conns| == |w.conns| && |r.loops| == |w.loops|
            && (forall c | 0 <= c < |w.conns| ::
                  && r.conns[c].loop == w.conns[c].loop && r.conns[c].closes == w.conns[c].closes
                  && r.conns[c].destroyed == w.conns[c].destroyed + if t == Destroy(c) then 1 else 0)
            && (forall i | 0 <= i < |w.loops| ::
                  r.loops[i].phase == w.loops[i].phase && r.loops[i].batch == w.loops[i].batch)
  {
    hide LoopSound, Name, SetEvents, RemoveChannel, Post;
    if t.Remove? {
      PostQuiet(SetConn(w, t.c, w.conns[t.c].(erased := w.conns[t.c].erased + 1)).(names := w.names - {Name(w, t.c)}),
                w.conns[t.c].loop, Destroy(t.c));
    } else {
      PostQuiet(w, w.conns[t.c].loop, Notify(t.c));
    }
  }

  lemma PostQuiet(w: World, l: nat, t: Task)
    requires l < |w.loops|
    ensures var r := Post(w, l, t);
            && r.conns == w.conns && |r.loops| == |w.loops|
            && (forall i | 0 <= i < |w.loops| ::
                  r.loops[i].phase == w.loops[i].phase && r.loops[i].batch == w.loops[i].batch)
  {
  }

  lemma TaskChans(w: World, t: Task, c: nat)
    requires Sound(w) && t.c < |w.conns| && c < |w.conns| && t != Destroy(c)
    requires t.c == c ==> !t.Establish?
    ensures var r := RunOne(w, t, Quiet); r.gone == w.gone && r.poller.chans[c] == w.poller.chans[c]
  {
    hide LoopSound, Name, SetEvents, RemoveChannel;
    ChansLeft(w.poller, t.c, NO_EVENT);
    ChansLeft(DisableAll(w.poller, t.c), t.c, NO_EVENT);
    ChansLeft(w.poller, t.c, w.poller.chans[t.c].events + READ_EVENT);
  }

  lemma TaskLeaves(w: World, t: Task, c: nat)
    requires Sound(w) && t.c < |w.conns| && c < |w.conns| && t != Destroy(c)
    requires t.c == c ==> !t.Establish?
    ensures var r := RunOne(w, t, Quiet);
            && |r.conns| == |w.conns| && |r.loops| == |w.loops| && r.gone == w.gone
            && r.conns[c].loop == w.conns[c].loop && r.conns[c].closes == w.conns[c].closes
            && r.conns[c].destroyed == w.conns[c].destroyed && r.poller.chans[c] == w.poller.chans[c]
            && forall i | 0 <= i < |w.loops| ::
                 r.loops[i].phase == w.loops[i].phase && r.loops[i].batch == w.loops[i].batch
  {
    hide Sound, RunOne;
    TaskQuiet(w, t, Quiet);
    TaskChans(w, t, c);
  }

  lemma ReopenedTask(w: World, l: nat, c: nat)
    requires Sound(w) && Reopened(w, l, c) && w.loops[l].phase.Running? && w.loops[l].batch != []
    requires Destroy(c) !in w.loops[l].batch
    ensures Enabled(w, RunTask(l, Quiet))
    ensures var r := Apply(w, RunTask(l, Quiet));
            && Reopened(r, l, c) && r.loops[l].phase.Running? && r.loops[l].batch == w.loops[l].batch[1..]
  {
    hide Inv, RunOne, LoopSound, ViewInv, ViewOf;
    HeadFacts(w, l);
    RunTaskKeeps(w, l, Quiet);
    ClosedEstablished(w, c);
    TaskLeaves(TakeTask(w, l), w.loops[l].batch[0], c);
  }

  lemma ClosedEstablished(w: World, c: nat)
    requires Inv(w) && c < |w.conns| && w.conns[c].closes > 0
    ensures w.conns[c].established == 1
  {
    hide Agreement, OpenFdsDistinct, TasksPlaced, DispatchInv, NamesInv, GoneInv, QueueInv, CountInv;
    InvView(w, c);
  }

  lemma {:induction false} ReopenedDoomed(w: World, l: nat, c: nat)
    requires Sound(w) && Reopened(w, l, c) && w.loops[l].phase.Running? && Destroy(c) !in w.loops[l].batch
    ensures Doomed(w)
    decreases |w.loops[l].batch|
  {
    hide Reopened, Sound, Apply, Enabled, Doomed, Inv;
    ReopenedPlaced(w, l, c);
    if w.loops[l].batch == [] {
      PolledDoomed(w, l, c);
    } else {
      ReopenedTask(w, l, c);
      ReopenedDoomed(Apply(w, RunTask(l, Quiet)), l, c);
      QuietSingle(w, l);
      DoomedStep(w, RunTask(l, Quiet));
    }
  }

  lemma ReopenedPlaced(w: World, l: nat, c: nat)
    requires Reopened(w, l, c)
    ensures c < |w.conns| && l < |w.loops|
  {
  }

  lemma QuietSingle(w: World, l: nat)
    requires l < |w.loops| && w.loops[l].batch != []
    ensures SingleLabel(w, RunTask(l, Quiet)) && TimelyLabel(w, RunTask(l, Quiet))
  {
  }

  /** The batch ends, and epoll reports the hang-up of the connection that has been put back. */
  lemma PolledDoomed(w: World, l: nat, c: nat)
    requires Sound(w) && Reopened(w, l, c) && w.loops[l].phase.Running? && w.loops[l].batch == []
    ensures Doomed(w)
  {
    hide Sound, Apply, Doomed, Inv;
    var a := EndBatch(l);
    QuietStepKeeps(w, a);
    EndBatchLeaves(w, l, c);
    var w1 := Apply(w, a);
    ReportedDoomed(w1, l, c);
    DoomedStep(w, a);
  }

  lemma EndBatchLeaves(w: World, l: nat, c: nat)
    requires Sound(w) && Reopened(w, l, c) && Enabled(w, EndBatch(l)) && Inv(Apply(w, EndBatch(l)))
    ensures Reopened(Apply(w, EndBatch(l)), l, c) && Apply(w, EndBatch(l)).loops[l].phase.Polling?
  {
    hide Inv, LoopSound;
  }

  lemma Reportably(w: World, l: nat, c: nat)
    requires Reopened(w, l, c)
    ensures Reportable(w, l, Ready(c, {Hup}))
  {
    hide OpenFdsDistinct, TasksPlaced, DispatchInv, NamesInv, GoneInv, QueueInv, CountInv, LoopSound;
    InvView(w, c);
    assert Registered(w.poller, c);
    var slot := w.poller.chans[c].key;
    assert slot in w.poller.kernel && slot.loop == l;
  }

  lemma ReportedDoomed(w: World, l: nat, c: nat)
    requires Sound(w) && Reopened(w, l, c) && w.loops[l].phase.Polling?
    ensures Doomed(w)
  {
    hide Sound, Doomed, Inv, Reportable;
    Reportably(w, l, c);
    var active := [Ready(c, {Hup})];
    var a := PollReturn(l, active);
    assert Enabled(w, a);
    PollReturnKeeps(w, l, active);
    HangUpDoomed(Apply(w, a), l, c);
    DoomedStep(w, a);
  }

  lemma HangUpDoomed(w: World, l: nat, c: nat)
    requires Sound(w) && Inv(w) && !w.gone && l < |w.loops| && c < |w.conns| && w.conns[c].closes > 0
    requires w.conns[c].destroyed == 0 && w.loops[l].phase == Dispatching([Ready(c, {Hup})])
    ensures Doomed(w)
  {
    hide Sound, Doomed, Inv, Owned;
    var a := BeginEvent(l, false);
    UndestroyedOwned(w, c);
    BeginEventKeeps(w, l, false);
    var w' := Apply(w, a);
    assert Callbacks({Hup}) == [CloseCallback];
    assert CountClosing([CloseCallback], false) == 1 by { assert [CloseCallback][1..] == []; }
    BusyDoomed(w', l, c, Callbacks({Hup}), false);
    DoomedStep(w, a);
  }

  lemma LateSendReopens(w: World, l: nat, o: Outcome)
    requires Sound(w) && Inv(w) && OnceInv(w) && Enabled(w, RunTask(l, o)) && !SingleLabel(w, RunTask(l, o))
    ensures var r := Apply(w, RunTask(l, o));
            var c := w.loops[l].batch[0].c;
            && Reopened(r, l, c) && r.loops[l].phase.Running? && Destroy(c) !in r.loops[l].batch
  {
    hide Inv, LoopSound, UpdateChannel;
    HeadClosedFacts(w, l);
    RunTaskKeeps(w, l, o);
    var c := w.loops[l].batch[0].c;
    assert Hushed(w, c) && Closes(w, c) <= 1;
    Readded(w.poller, c);
  }

  lemma Readded(p: Poller<Slot, nat>, c: nat)
    requires c in p.chans && p.chans[c].index == New && p.chans[c].events == NO_EVENT
    ensures !p.chans[c].IsWriting() && EnableWriting(p, c).chans[c].index == Added
  {
  }

  lemma LateSendDoomed(w: World, l: nat, o: Outcome)
    requires Sound(w) && Inv(w) && OnceInv(w) && Enabled(w, RunTask(l, o)) && !SingleLabel(w, RunTask(l, o))
    ensures Doomed(Apply(w, RunTask(l, o)))
  {
    hide Inv, OnceInv, Apply, Reopened, Doomed;
    LateSendReopens(w, l, o);
    ReopenedDoomed(Apply(w, RunTask(l, o)), l, w.loops[l].batch[0].c);
  }

  // ---------------------------------------------------------------- both directions

  lemma OnceHarmless(w: World)
    requires Sound(w) && Inv(w) && OnceInv(w)
    ensures Harmless(w)
  {
    hide Sound, Inv, Executes, TimelyRun, SingleRun, Final;
    forall run | Continues(w, run) ensures ClosedOnce(Final(w, run)) {
      RunOnceFrom(w, run);
    }
  }

  /**
   * A step leaves a world from which nothing can close twice, other steps of the two bad kinds apart,
   * exactly if it is itself of neither kind; otherwise a second close is on the way.
   */
  lemma StepOnceIff(w: World, a: Label)
    requires Sound(w) && Inv(w) && OnceInv(w) && Enabled(w, a) && TimelyLabel(w, a)
    ensures Harmless(Apply(w, a)) <==> SingleLabel(w, a)
  {
    hide Inv, OnceInv, Sound, Apply, Enabled, Harmless, TimelyLabel;
    if SingleLabel(w, a) {
      StepKeeps(w, a);
      StepOnce(w, a);
      OnceHarmless(Apply(w, a));
    } else {
      if a.BeginEvent? {
        DoubledDoomed(w, a.l, a.eof);
      } else {
        LateSendDoomed(w, a.l, a.o);
      }
      DoomedHarms(Apply(w, a));
    }
  }

  lemma DoomedHarms(w: World)
    requires Sound(w) && Doomed(w)
    ensures !Harmless(w)
  {
    hide Sound, Continues, ClosedOnce;
  }

  /** At no moment of the run a second close can come about by good steps alone. */
  ghost predicate HarmlessRun(w: World, run: seq<Label>)
    requires Sound(w) && Executes(w, run)
    decreases |run|
  {
    Harmless(w) && (run == [] || HarmlessRun(Apply(w, run[0]), run[1..]))
  }

  lemma {:induction false} HarmlessFrom(w: World, run: seq<Label>)
    requires Sound(w) && Inv(w) && OnceInv(w) && Executes(w, run) && TimelyRun(w, run)
    ensures HarmlessRun(w, run) <==> SingleRun(w, run)
    decreases |run|
  {
    hide Inv, OnceInv, Sound, Apply, Enabled, Harmless, SingleLabel, TimelyLabel;
    OnceHarmless(w);
    if run != [] {
      StepOnceIff(w, run[0]);
      if SingleLabel(w, run[0]) {
        StepKeeps(w, run[0]);
        StepOnce(w, run[0]);
        HarmlessFrom(Apply(w, run[0]), run[1..]);
      }
    }
  }

  /**
   * Over whole runs: a run keeps every connection safe from a second close, at each of its moments
   * and in every future made of good steps, exactly if it contains neither a doubled dispatch nor a
   * send that reopens a closed connection.
   */
  lemma LifeOnceIff(w0: World, run: seq<Label>)
    requires Init(w0) && Executes(w0, run) && TimelyRun(w0, run)
    ensures HarmlessRun(w0, run) <==> SingleRun(w0, run)
  {
    hide Inv, OnceInv, Executes, TimelyRun, SingleRun, HarmlessRun;
    InitOnce(w0);
    HarmlessFrom(w0, run);
  }

  // ---------------------------------------------------------------- connections of the main loop

  /** In a running batch of the main loop, each closed connection of that loop has its destruction ahead. */
  ghost predicate MainInv(w: World)
    requires Sound(w)
  {
    w.loops[0].phase.Running? ==>
      forall c | 0 <= c < |w.conns| && w.conns[c].loop == 0 && w.conns[c].closes > 0 && w.conns[c].destroyed == 0 ::
        Destroy(c) in w.loops[0].batch
  }

  lemma MainTask(w: World, l: nat, o: Outcome)
    requires Sound(w) && MainInv(w) && Enabled(w, RunTask(l, o))
    ensures MainInv(Apply(w, RunTask(l, o)))
  {
    hide RunOne, LoopSound;
    HeadInRange(w, l);
    var b := TakeTask(w, l);
    var t := w.loops[l].batch[0];
    TaskQuiet(b, t, o);
    var w' := RunOne(b, t, o);
    if w'.loops[0].phase.Running? {
      forall c | 0 <= c < |w'.conns| && w'.conns[c].loop == 0 && w'.conns[c].closes > 0 && w'.conns[c].destroyed == 0
        ensures Destroy(c) in w'.loops[0].batch
      {
        assert t != Destroy(c) && Destroy(c) in w.loops[0].batch;
        var i :| 0 <= i < |w.loops[0].batch| && w.loops[0].batch[i] == Destroy(c);
        if l == 0 {
          assert i > 0 && b.loops[0].batch[i - 1] == Destroy(c);
        }
      }
    }
  }

  lemma HeadInRange(w: World, l: nat)
    requires Sound(w) && l < |w.loops| && w.loops[l].batch != []
    ensures w.loops[l].batch[0].c < |w.conns|
  {
    assert LoopSound(w.loops[l], |w.conns|);
  }

  lemma MainSwap(w: World)
    requires Sound(w) && Inv(w)
    ensures MainInv(Swap(w, 0))
  {
    hide Inv, LoopSound;
    forall c | 0 <= c < |w.conns| && w.conns[c].loop == 0 && w.conns[c].closes > 0 && w.conns[c].destroyed == 0
      ensures Destroy(c) in w.loops[0].Queue()
    {
      ClosedQueued(w, c);
    }
  }

  lemma ClosedQueued(w: World, c: nat)
    requires Inv(w) && c < |w.conns| && w.conns[c].loop == 0 && w.conns[c].closes > 0 && w.conns[c].destroyed == 0
    ensures Destroy(c) in w.loops[0].Queue()
  {
    hide Agreement, Views, OpenFdsDistinct, DispatchInv, NamesInv, GoneInv, TasksPlaced, Mine, LoopSound;
    InvView(w, c);
    MineHas(w.loops[0].Queue(), c);
    var v := ViewOf(w, c);
    assert Remove(c) !in multiset(v.main) by {
      assert forall t <- v.main :: !t.Remove?;
    }
    assert multiset(v.io)[Destroy(c)] > 0;
    assert Destroy(c) in multiset(v.io) && Destroy(c) in v.io;
  }

  lemma MainCallback(w: World, l: nat, o: Outcome)
    requires Sound(w) && Inv(w) && MainInv(w) && Enabled(w, RunCallback(l, o))
    ensures MainInv(Apply(w, RunCallback(l, o)))
  {
    hide Agreement, Views, OpenFdsDistinct, NamesInv, GoneInv, TasksPlaced, HandleClose, HandleWrite, LoopSound;
    var ph := w.loops[l].phase;
    assert Active(ph)[0] == ph.c && Undestroyed(w, l, ph.c);
    BusySound(w, l);
    var w1 := SetPhase(w, l, ph.(todo := ph.todo[1..]));
    if Closing(ph.todo[0], ph.eof) {
      CloseLeaves(w1, ph.c);
    } else {
      WriteLeaves(w1, ph.c, o);
    }
  }

  lemma CloseLeaves(w: World, c: nat)
    requires Sound(w) && c < |w.conns|
    ensures var r := HandleClose(w, c);
            && |r.conns| == |w.conns| && |r.loops| == |w.loops|
            && r.conns[c].loop == w.conns[c].loop
            && (forall d | 0 <= d < |w.conns| && d != c :: r.conns[d] == w.conns[d])
            && forall i | 0 <= i < |w.loops| ::
                 r.loops[i].phase == w.loops[i].phase && r.loops[i].batch == w.loops[i].batch
  {
    hide LoopSound, Name, HandleClose, SetEvents;
    HandleCloseShape(w, c);
  }

  lemma WriteLeaves(w: World, c: nat, o: Outcome)
    requires Sound(w) && c < |w.conns|
    ensures var r := HandleWrite(w, c, o);
            && r.conns == w.conns && |r.loops| == |w.loops|
            && forall i | 0 <= i < |w.loops| ::
                 r.loops[i].phase == w.loops[i].phase && r.loops[i].batch == w.loops[i].batch
  {
    hide LoopSound, SetEvents;
  }

  lemma MainOther(w: World, a: Label)
    requires Sound(w) && MainInv(w) && Enabled(w, a)
    requires !a.RunTask? && !a.RunCallback? && a != SwapPending(0)
    ensures MainInv(Apply(w, a))
  {
    hide Sound, Name, NewConnection, Drop, SendInLoop, HandleEvent;
    match a
    case Accept(fd, io) => AcceptPhase(w, fd, io);
    case DropConnection(c) => MainDrop(w, c);
    case LocalSend(c, o) => MainSend(w, c, o);
    case BeginEvent(l, eof) => MainEvent(w, l, eof);
    case _ => MainPlain(w, a);
  }

  lemma MainPlain(w: World, a: Label)
    requires Sound(w) && MainInv(w) && Enabled(w, a) && a != SwapPending(0)
    requires || a.PollReturn? || a.EndEvent? || a.SwapPending? || a.EndBatch? || a.CheckSend? || a.PushRaw?
             || a.CheckShutdown? || a.SetDisconnecting? || a.DestroyServer?
    ensures MainInv(Apply(w, a))
  {
    hide LoopSound, Name, QueueRaw, StoreDisconnecting;
    match a
    case PushRaw(t) => MainPush(w, t);
    case SetDisconnecting(c, local) => MainStore(w, c, local);
    case _ =>
  }

  lemma MainPush(w: World, t: Task)
    requires Sound(w) && MainInv(w) && t.c < |w.conns|
    ensures MainInv(QueueRaw(w, t))
  {
    hide LoopSound;
  }

  lemma MainStore(w: World, c: nat, local: bool)
    requires Sound(w) && MainInv(w) && c < |w.conns|
    ensures MainInv(StoreDisconnecting(w, c, local))
  {
    hide LoopSound;
  }

  lemma MainDrop(w: World, c: nat)
    requires Sound(w) && MainInv(w) && c < |w.conns|
    ensures MainInv(Drop(w, c))
  {
    hide LoopSound, Name, SetEvents, RemoveChannel;
  }

  lemma MainSend(w: World, c: nat, o: Outcome)
    requires Sound(w) && MainInv(w) && c < |w.conns|
    ensures MainInv(SendInLoop(w, c, o))
  {
    hide LoopSound, SetEvents;
  }

  lemma MainEvent(w: World, l: nat, eof: bool)
    requires Sound(w) && MainInv(w) && Enabled(w, BeginEvent(l, eof))
    ensures MainInv(HandleEvent(w, l, eof))
  {
    hide LoopSound, Owned, Callbacks;
  }

  lemma AcceptPhase(w: World, fd: nat, io: nat)
    requires Sound(w) && io < |w.loops|
    ensures NewConnection(w, fd, io).loops[0].phase == w.loops[0].phase
  {
    hide Name, SetEvents, NewConnection, LoopSound;
    NewConnectionShape(w, fd, io);
  }

  lemma MainStep(w: World, a: Label)
    requires Sound(w) && Inv(w) && MainInv(w) && Enabled(w, a)
    ensures MainInv(Apply(w, a))
  {
    hide Sound, Inv, MainInv, Enabled, RunOne, CallNext;
    match a
    case RunTask(l, o) => MainTask(w, l, o);
    case RunCallback(l, o) => MainCallback(w, l, o);
    case _ => if a == SwapPending(0) { MainSwap(w); } else { MainOther(w, a); }
  }

  lemma {:induction false} MainRun(w: World, run: seq<Label>)
    requires Sound(w) && Inv(w) && MainInv(w) && Executes(w, run) && TimelyRun(w, run)
    ensures Inv(Final(w, run)) && MainInv(Final(w, run))
    decreases |run|
  {
    hide Sound, Inv, MainInv, Enabled, Apply, TimelyLabel;
    if run != [] {
      StepKeeps(w, run[0]);
      MainStep(w, run[0]);
      MainRun(Apply(w, run[0]), run[1..]);
    }
  }

  /**
   * No queued send reopens a connection of the main loop: its close has queued the destruction into
   * the same batch. So in a server without io threads the doubled dispatch is the only bad step.
   */
  lemma MainNeverReopens(w0: World, run: seq<Label>, l: nat, o: Outcome)
    requires Init(w0) && Executes(w0, run) && TimelyRun(w0, run)
    requires Enabled(Final(w0, run), RunTask(l, o)) && |Final(w0, run).loops| == 1
    ensures SingleLabel(Final(w0, run), RunTask(l, o))
  {
    hide Inv, Sound, Executes, TimelyRun, Final, MainInv, Enabled, Init;
    InitMain(w0);
    MainRun(w0, run);
    MainSingle(Final(w0, run), l, o);
  }

  lemma InitMain(w: World)
    requires Init(w)
    ensures Inv(w) && MainInv(w)
  {
    InitInv(w);
  }

  lemma MainSingle(w: World, l: nat, o: Outcome)
    requires Sound(w) && Inv(w) && MainInv(w) && Enabled(w, RunTask(l, o)) && |w.loops| == 1
    ensures SingleLabel(w, RunTask(l, o))
  {
    hide Inv, LoopSound;
    HeadClosedFacts(w, l);
  }
}
