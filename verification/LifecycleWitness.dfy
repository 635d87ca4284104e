/** Concrete runs of a one-loop server in which a guarantee fails once its hypothesis is dropped. */
module LifecycleWitness {
  import opened ConnState
  import opened Registry
  import opened Dispatch
  import opened Naming
  import opened Lifecycle

  const SERVER := "server"
  const ADDRESS := InetAddress(127, 0, 0, 1, 8000)
  const SLOT := Slot(0, 5)

  /** The world of a server whose only connection has fd 5 on the main loop. */
  function At(phase: Phase, batch: seq<Task>, pending: seq<Task>, conns: seq<Conn>, listed: bool,
              poller: Poller<Slot, nat>, raw: multiset<Task>, stopping: multiset<nat>): World
  {
    World(SERVER, ADDRESS, conns, if listed then map[ConnName(SERVER, ADDRESS, 1) := 0] else map[],
          [Loop(phase, batch, pending)], poller, raw, stopping, false)
  }

  const NO_POLLER: Poller<Slot, nat> := Poller(map[], map[], map[], 0)

  const START: World := At(Polling, [], [], [], false, NO_POLLER, multiset{}, multiset{})

  /** The poller while the connection is registered for `events`. */
  function On(events: Mask): Poller<Slot, nat> {
    Poller(map[SLOT := 0], map[SLOT := Entry(0, events)], map[0 := Chan(SLOT, events, Added)], 0)
  }

  /** The poller after disableAll took the connection out of the kernel's set. */
  const OFF: Poller<Slot, nat> := Poller(map[SLOT := 0], map[], map[0 := Chan(SLOT, NO_EVENT, New)], 0)

  /** The poller after connectDestroyed. */
  const AWAY: Poller<Slot, nat> := Poller(map[], map[], map[0 := Chan(SLOT, NO_EVENT, New)], 0)

  const OPEN := Conn(0, 5, Connected, 1, 0, 1, 0, 0, 0, 0, 0)
  const CLOSED := Conn(0, 5, Disconnected, 1, 1, 1, 1, 1, 0, 0, 0)
  const DEAD := CLOSED.(destroyed := 1)

  ghost predicate Reaches(w: World, run: seq<Label>, w': World) {
    Sound(w) && Executes(w, run) && Final(w, run) == w'
  }

  /** `a` is enabled in `w` and leads to `w'`. */
  ghost predicate Step(w: World, a: Label, w': World) {
    Sound(w) && Enabled(w, a) && Apply(w, a) == w'
  }

  // ---------------------------------------------------------------- the steps the runs share

  /** The loop swaps an empty queue in and out. */
  lemma IdleRound(conns: seq<Conn>, listed: bool, p: Poller<Slot, nat>, s: multiset<Task>, t: multiset<nat>)
    requires Sound(At(Polling, [], [], conns, listed, p, s, t))
    ensures Step(At(Polling, [], [], conns, listed, p, s, t), PollReturn(0, []),
                 At(Dispatching([]), [], [], conns, listed, p, s, t))
    ensures Step(At(Dispatching([]), [], [], conns, listed, p, s, t), SwapPending(0),
                 At(Running, [], [], conns, listed, p, s, t))
    ensures Step(At(Running, [], [], conns, listed, p, s, t), EndBatch(0),
                 At(Polling, [], [], conns, listed, p, s, t))
  {
    hide ConnName;
    var none: seq<Task> := [];
    assert none + none == none;
    assert Apply(At(Dispatching([]), [], [], conns, listed, p, s, t), SwapPending(0)).loops == [Loop(Running, [], [])];
  }

  lemma AcceptStep()
    ensures Step(At(Dispatching([]), [], [], [], false, NO_POLLER, multiset{}, multiset{}), Accept(5, 0),
                 At(Dispatching([]), [], [], [OPEN], true, On(READ_EVENT), multiset{}, multiset{}))
  {
    hide ConnName;
    var w := At(Dispatching([]), [], [], [], false, NO_POLLER, multiset{}, multiset{});
    var w' := Apply(w, Accept(5, 0));
    assert Name(w, 0) == ConnName(SERVER, ADDRESS, 1);
    assert w'.poller == On(READ_EVENT) by {
      assert NO_EVENT + READ_EVENT == READ_EVENT;
    }
    assert w'.names == map[ConnName(SERVER, ADDRESS, 1) := 0];
    assert w'.conns == [OPEN];
  }

  lemma PollHupStep(revents: Mask, s: multiset<Task>, t: multiset<nat>)
    requires revents <= READ_EVENT + {Hup, Err}
    ensures Step(At(Polling, [], [], [OPEN], true, On(READ_EVENT), s, t), PollReturn(0, [Ready(0, revents)]),
                 At(Dispatching([Ready(0, revents)]), [], [], [OPEN], true, On(READ_EVENT), s, t))
  {
    hide ConnName;
    var w := At(Polling, [], [], [OPEN], true, On(READ_EVENT), s, t);
    assert SLOT in w.poller.kernel;
    assert Reportable(w, 0, Ready(0, revents));
  }

  lemma BeginStep(revents: Mask, eof: bool, s: multiset<Task>, t: multiset<nat>)
    ensures Step(At(Dispatching([Ready(0, revents)]), [], [], [OPEN], true, On(READ_EVENT), s, t), BeginEvent(0, eof),
                 At(Handling(0, Callbacks(revents), eof, []), [], [], [OPEN], true, On(READ_EVENT), s, t))
  {
    hide ConnName;
    var w := At(Dispatching([Ready(0, revents)]), [], [], [OPEN], true, On(READ_EVENT), s, t);
    assert Listed(w, 0);
    assert [Ready(0, revents)][1..] == [];
    assert Apply(w, BeginEvent(0, eof)).loops == [Loop(Handling(0, Callbacks(revents), eof, []), [], [])];
  }

  lemma SwitchedOff()
    ensures DisableAll(On(READ_EVENT), 0) == OFF && DisableAll(OFF, 0) == On(NO_EVENT)
  {
  }

  lemma OpenHandlingSound(todo: seq<Callback>, eof: bool, s: multiset<Task>, t: multiset<nat>)
    ensures Sound(At(Handling(0, todo, eof, []), [], [], [OPEN], true, On(READ_EVENT), s, t))
  {
    hide ConnName;
  }

  lemma CloseStep(todo: seq<Callback>, eof: bool, s: multiset<Task>, t: multiset<nat>)
    ensures Step(At(Handling(0, [CloseCallback] + todo, eof, []), [], [], [OPEN], true, On(READ_EVENT), s, t),
                 RunCallback(0, Quiet),
                 At(Handling(0, todo, eof, []), [], [Destroy(0)], [CLOSED], false, OFF, s, t))
  {
    hide ConnName, SetEvents, Sound;
    SwitchedOff();
    OpenHandlingSound([CloseCallback] + todo, eof, s, t);
    var w := At(Handling(0, [CloseCallback] + todo, eof, []), [], [], [OPEN], true, On(READ_EVENT), s, t);
    var w' := Apply(w, RunCallback(0, Quiet));
    assert ([CloseCallback] + todo)[1..] == todo;
    var none: seq<Task> := [];
    assert none + [Destroy(0)] == [Destroy(0)];
    assert w'.loops == [Loop(Handling(0, todo, eof, []), [], [Destroy(0)])];
    assert w'.poller == OFF;
    assert w'.names == map[];
    assert w'.conns == [CLOSED];
  }

  lemma EndStep(eof: bool, s: multiset<Task>, t: multiset<nat>)
    ensures Step(At(Handling(0, [], eof, []), [], [Destroy(0)], [CLOSED], false, OFF, s, t), EndEvent(0),
                 At(Dispatching([]), [], [Destroy(0)], [CLOSED], false, OFF, s, t))
    ensures Step(At(Dispatching([]), [], [Destroy(0)], [CLOSED], false, OFF, s, t), SwapPending(0),
                 At(Running, [Destroy(0)], [], [CLOSED], false, OFF, s, t))
  {
    hide ConnName;
    var none: seq<Task> := [];
    assert none + [Destroy(0)] == [Destroy(0)];
    var w := At(Dispatching([]), [], [Destroy(0)], [CLOSED], false, OFF, s, t);
    assert Apply(w, SwapPending(0)).loops == [Loop(Running, [Destroy(0)], [])];
  }

  lemma DestroyStep(s: multiset<Task>, t: multiset<nat>)
    ensures Step(At(Running, [Destroy(0)], [], [CLOSED], false, OFF, s, t), RunTask(0, Quiet),
                 At(Running, [], [], [DEAD], false, AWAY, s, t))
  {
    hide ConnName;
    var w := At(Running, [Destroy(0)], [], [CLOSED], false, OFF, s, t);
    var w' := Apply(w, RunTask(0, Quiet));
    assert [Destroy(0)][1..] == [];
    assert w'.poller == AWAY;
    assert w'.conns == [DEAD];
    assert w'.loops == [Loop(Running, [], [])];
  }

  // ---------------------------------------------------------------- a send pushed too late

  lemma LatePushStep()
    ensures Step(At(Running, [], [], [DEAD], false, AWAY, multiset{Send(0)}, multiset{}), PushRaw(Send(0)),
                 At(Running, [], [Send(0)], [DEAD], false, AWAY, multiset{}, multiset{}))
    ensures Step(At(Running, [], [Send(0)], [DEAD], false, AWAY, multiset{}, multiset{}), EndBatch(0),
                 At(Polling, [], [Send(0)], [DEAD], false, AWAY, multiset{}, multiset{}))
  {
    hide ConnName;
    var none: seq<Task> := [];
    assert none + [Send(0)] == [Send(0)];
    var w := At(Running, [], [], [DEAD], false, AWAY, multiset{Send(0)}, multiset{});
    assert Apply(w, PushRaw(Send(0))).loops == [Loop(Running, [], [Send(0)])];
  }

  lemma LateSwapStep()
    ensures Step(At(Polling, [], [Send(0)], [DEAD], false, AWAY, multiset{}, multiset{}), PollReturn(0, []),
                 At(Dispatching([]), [], [Send(0)], [DEAD], false, AWAY, multiset{}, multiset{}))
    ensures Step(At(Dispatching([]), [], [Send(0)], [DEAD], false, AWAY, multiset{}, multiset{}), SwapPending(0),
                 At(Running, [Send(0)], [], [DEAD], false, AWAY, multiset{}, multiset{}))
  {
    hide ConnName;
    var none: seq<Task> := [];
    assert none + [Send(0)] == [Send(0)];
    var w := At(Dispatching([]), [], [Send(0)], [DEAD], false, AWAY, multiset{}, multiset{});
    assert Apply(w, SwapPending(0)).loops == [Loop(Running, [Send(0)], [])];
  }

  // ---------------------------------------------------------------- whole runs

  lemma StepThen(w: World, a: Label, w1: World, rest: seq<Label>, w': World)
    requires Step(w, a, w1) && Reaches(w1, rest, w')
    ensures Reaches(w, [a] + rest, w')
  {
    hide Enabled, Apply, Sound;
    assert ([a] + rest)[1..] == rest;
  }

  /** A user thread's check, if any, made while the connection is up. */
  predicate CheckWith(check: seq<Label>, s: multiset<Task>, t: multiset<nat>) {
    || (check == [] && s == multiset{} && t == multiset{})
    || (check == [CheckSend(0)] && s == multiset{Send(0)} && t == multiset{})
    || (check == [CheckShutdown(0)] && s == multiset{} && t == multiset{0})
  }

  lemma CheckStep(check: seq<Label>, s: multiset<Task>, t: multiset<nat>)
    requires CheckWith(check, s, t) && check != []
    ensures Step(At(Dispatching([]), [], [], [OPEN], true, On(READ_EVENT), multiset{}, multiset{}), check[0],
                 At(Dispatching([]), [], [], [OPEN], true, On(READ_EVENT), s, t))
  {
    hide ConnName;
  }

  lemma CheckThen(check: seq<Label>, s: multiset<Task>, t: multiset<nat>, rest: seq<Label>, w': World)
    requires CheckWith(check, s, t)
    requires Reaches(At(Dispatching([]), [], [], [OPEN], true, On(READ_EVENT), s, t), rest, w')
    ensures Reaches(At(Dispatching([]), [], [], [OPEN], true, On(READ_EVENT), multiset{}, multiset{}), check + rest, w')
  {
    hide ConnName, At, Step, Reaches;
    var w := At(Dispatching([]), [], [], [OPEN], true, On(READ_EVENT), multiset{}, multiset{});
    if check == [] {
      assert check + rest == rest;
    } else {
      CheckStep(check, s, t);
      StepThen(w, check[0], At(Dispatching([]), [], [], [OPEN], true, On(READ_EVENT), s, t), rest, w');
      assert check == [check[0]];
    }
  }

  /** Start, accept, check, poll, and the first handleClose of a dispatch. */
  function ToClose(check: seq<Label>, revents: Mask, eof: bool, rest: seq<Label>): seq<Label> {
    [PollReturn(0, [])] + ([Accept(5, 0)] + (check + ([SwapPending(0)] + ([EndBatch(0)]
    + ([PollReturn(0, [Ready(0, revents)])] + ([BeginEvent(0, eof)] + ([RunCallback(0, Quiet)] + rest)))))))
  }

  lemma CloseThen(check: seq<Label>, s: multiset<Task>, t: multiset<nat>, revents: Mask, eof: bool,
                  todo: seq<Callback>, rest: seq<Label>, w': World)
    requires CheckWith(check, s, t) && revents <= READ_EVENT + {Hup, Err}
    requires Callbacks(revents) == [CloseCallback] + todo
    requires Reaches(At(Handling(0, todo, eof, []), [], [Destroy(0)], [CLOSED], false, OFF, s, t), rest, w')
    ensures Reaches(START, ToClose(check, revents, eof, rest), w')
  {
    hide ConnName, Step, Reaches, CheckWith, At, Callbacks;
    var p := On(READ_EVENT);
    var ready := Ready(0, revents);
    CloseStep(todo, eof, s, t);
    StepThen(At(Handling(0, [CloseCallback] + todo, eof, []), [], [], [OPEN], true, p, s, t), RunCallback(0, Quiet),
             At(Handling(0, todo, eof, []), [], [Destroy(0)], [CLOSED], false, OFF, s, t), rest, w');
    var run := [RunCallback(0, Quiet)] + rest;
    BeginStep(revents, eof, s, t);
    StepThen(At(Dispatching([ready]), [], [], [OPEN], true, p, s, t), BeginEvent(0, eof),
             At(Handling(0, Callbacks(revents), eof, []), [], [], [OPEN], true, p, s, t), run, w');
    run := [BeginEvent(0, eof)] + run;
    PollHupStep(revents, s, t);
    StepThen(At(Polling, [], [], [OPEN], true, p, s, t), PollReturn(0, [ready]),
             At(Dispatching([ready]), [], [], [OPEN], true, p, s, t), run, w');
    run := [PollReturn(0, [ready])] + run;
    OpenSound(s, t);
    IdleRound([OPEN], true, p, s, t);
    StepThen(At(Running, [], [], [OPEN], true, p, s, t), EndBatch(0),
             At(Polling, [], [], [OPEN], true, p, s, t), run, w');
    run := [EndBatch(0)] + run;
    StepThen(At(Dispatching([]), [], [], [OPEN], true, p, s, t), SwapPending(0),
             At(Running, [], [], [OPEN], true, p, s, t), run, w');
    run := [SwapPending(0)] + run;
    CheckThen(check, s, t, run, w');
    run := check + run;
    AcceptStep();
    StepThen(At(Dispatching([]), [], [], [], false, NO_POLLER, multiset{}, multiset{}), Accept(5, 0),
             At(Dispatching([]), [], [], [OPEN], true, p, multiset{}, multiset{}), run, w');
    run := [Accept(5, 0)] + run;
    StartSound();
    IdleRound([], false, NO_POLLER, multiset{}, multiset{});
    StepThen(START, PollReturn(0, []),
             At(Dispatching([]), [], [], [], false, NO_POLLER, multiset{}, multiset{}), run, w');
  }

  lemma OpenSound(s: multiset<Task>, t: multiset<nat>)
    ensures Sound(At(Polling, [], [], [OPEN], true, On(READ_EVENT), s, t))
  {
    hide ConnName;
  }

  lemma StartSound()
    ensures Sound(At(Polling, [], [], [], false, NO_POLLER, multiset{}, multiset{})) && Init(START)
  {
  }

  lemma Stop(w: World)
    requires Sound(w)
    ensures Reaches(w, [], w)
  {
  }

  const LATE_SEND: seq<Label> := ToClose([CheckSend(0)], {Hup}, false,
    [EndEvent(0)] + ([SwapPending(0)] + ([RunTask(0, Quiet)] + ([PushRaw(Send(0))] + ([EndBatch(0)]
    + ([PollReturn(0, [])] + ([SwapPending(0)] + [])))))))

  /** The loop is about to run a sendInLoop on a destroyed connection that nobody owns. */
  const ORPHANED: World := At(Running, [Send(0)], [], [DEAD], false, AWAY, multiset{}, multiset{})

  /**
   * A send checked before the close and pushed after connectDestroyed: when its turn comes the object
   * its raw `this` points to has been destroyed and has no owner left.
   */
  lemma LateSendDangles()
    ensures Init(START) && Executes(START, LATE_SEND)
    ensures var w := Final(START, LATE_SEND);
            && w.loops[0].phase.Running? && w.loops[0].batch == [Send(0)]
            && |w.conns| == 1 && w.conns[0].destroyed == 1 && !Owned(w, 0)
  {
    hide At, ConnName;
    LateSendRuns();
    StartSound();
  }

  lemma OrphanFacts()
    ensures Sound(ORPHANED) && !Owned(ORPHANED, 0)
    ensures ORPHANED.loops == [Loop(Running, [Send(0)], [])] && ORPHANED.conns == [DEAD]
  {
    hide ConnName;
  }

  lemma LateSendRuns()
    ensures Reaches(START, LATE_SEND, ORPHANED) && !Owned(ORPHANED, 0)
    ensures ORPHANED.loops == [Loop(Running, [Send(0)], [])] && ORPHANED.conns == [DEAD]
  {
    hide ConnName, Step, Reaches, At, Owned, Sound;
    OrphanFacts();
    LatePushStep();
    LateSwapStep();
    Stop(ORPHANED);
    var s, none: multiset<Task> := multiset{Send(0)}, multiset{};
    var t: multiset<nat> := multiset{};
    var w' := ORPHANED;
    var run: seq<Label> := [];
    StepThen(At(Dispatching([]), [], [Send(0)], [DEAD], false, AWAY, none, t), SwapPending(0), w', run, w');
    run := [SwapPending(0)] + run;
    StepThen(At(Polling, [], [Send(0)], [DEAD], false, AWAY, none, t), PollReturn(0, []),
             At(Dispatching([]), [], [Send(0)], [DEAD], false, AWAY, none, t), run, w');
    run := [PollReturn(0, [])] + run;
    StepThen(At(Running, [], [Send(0)], [DEAD], false, AWAY, none, t), EndBatch(0),
             At(Polling, [], [Send(0)], [DEAD], false, AWAY, none, t), run, w');
    run := [EndBatch(0)] + run;
    StepThen(At(Running, [], [], [DEAD], false, AWAY, s, t), PushRaw(Send(0)),
             At(Running, [], [Send(0)], [DEAD], false, AWAY, none, t), run, w');
    run := [PushRaw(Send(0))] + run;
    DestroyStep(s, t);
    StepThen(At(Running, [Destroy(0)], [], [CLOSED], false, OFF, s, t), RunTask(0, Quiet),
             At(Running, [], [], [DEAD], false, AWAY, s, t), run, w');
    run := [RunTask(0, Quiet)] + run;
    EndStep(false, s, t);
    StepThen(At(Dispatching([]), [], [Destroy(0)], [CLOSED], false, OFF, s, t), SwapPending(0),
             At(Running, [Destroy(0)], [], [CLOSED], false, OFF, s, t), run, w');
    run := [SwapPending(0)] + run;
    StepThen(At(Handling(0, [], false, []), [], [Destroy(0)], [CLOSED], false, OFF, s, t), EndEvent(0),
             At(Dispatching([]), [], [Destroy(0)], [CLOSED], false, OFF, s, t), run, w');
    run := [EndEvent(0)] + run;
    assert Callbacks({Hup}) == [CloseCallback] + [];
    CloseThen([CheckSend(0)], s, t, {Hup}, false, [], run, w');
  }

  lemma ClosedHandlingSound()
    ensures Sound(At(Handling(0, [ReadCallback], true, []), [], [Destroy(0)], [CLOSED], false, OFF,
                     multiset{}, multiset{}))
  {
    hide ConnName;
  }

  lemma SecondCloseStep()
    ensures Step(At(Handling(0, [ReadCallback], true, []), [], [Destroy(0)], [CLOSED], false, OFF,
                    multiset{}, multiset{}),
                 RunCallback(0, Quiet),
                 At(Handling(0, [], true, []), [], [Destroy(0), Destroy(0)],
                    [CLOSED.(closes := 2, downs := 2, erased := 2)], false, On(NO_EVENT), multiset{}, multiset{}))
  {
    hide ConnName, SetEvents, Sound;
    SwitchedOff();
    ClosedHandlingSound();
    var w := At(Handling(0, [ReadCallback], true, []), [], [Destroy(0)], [CLOSED], false, OFF, multiset{}, multiset{});
    var w' := Apply(w, RunCallback(0, Quiet));
    assert [Destroy(0)] + [Destroy(0)] == [Destroy(0), Destroy(0)];
    assert [ReadCallback][1..] == [];
    assert w'.loops == [Loop(Handling(0, [], true, []), [], [Destroy(0), Destroy(0)])];
    assert w'.names == map[];
    assert w'.poller == On(NO_EVENT);
    assert w'.conns == [CLOSED.(closes := 2, downs := 2, erased := 2)];
  }

  const DOUBLE_CLOSE: seq<Label> := ToClose([], {Hup, Pri}, true, [RunCallback(0, Quiet)] + [])

  /** One dispatch with EPOLLHUP and EPOLLPRI but no EPOLLIN, and a read that ends: two downs for one up. */
  lemma DoubleCloseHappens()
    ensures Init(START) && Executes(START, DOUBLE_CLOSE)
    ensures var w := Final(START, DOUBLE_CLOSE);
            && |w.conns| == 1 && w.conns[0].ups == 1 && w.conns[0].downs == 2 && w.conns[0].closes == 2
            && w.poller.kernel == map[SLOT := Entry(0, NO_EVENT)]
  {
    var w' := At(Handling(0, [], true, []), [], [Destroy(0), Destroy(0)],
                 [CLOSED.(closes := 2, downs := 2, erased := 2)], false, On(NO_EVENT), multiset{}, multiset{});
    DoubleCloseRuns(w');
    StartSound();
  }

  lemma DoubleCloseRuns(w': World)
    requires w' == At(Handling(0, [], true, []), [], [Destroy(0), Destroy(0)],
                      [CLOSED.(closes := 2, downs := 2, erased := 2)], false, On(NO_EVENT), multiset{}, multiset{})
    ensures Reaches(START, DOUBLE_CLOSE, w')
  {
    hide ConnName, Step, Reaches, At, Sound;
    SecondCloseStep();
    TwiceSound();
    Stop(w');
    StepThen(At(Handling(0, [ReadCallback], true, []), [], [Destroy(0)], [CLOSED], false, OFF, multiset{}, multiset{}),
             RunCallback(0, Quiet), w', [], w');
    assert Callbacks({Hup, Pri}) == [CloseCallback] + [ReadCallback];
    CloseThen([], multiset{}, multiset{}, {Hup, Pri}, true, [ReadCallback], [RunCallback(0, Quiet)] + [], w');
  }

  lemma TwiceSound()
    ensures Sound(At(Handling(0, [], true, []), [], [Destroy(0), Destroy(0)],
                     [CLOSED.(closes := 2, downs := 2, erased := 2)], false, On(NO_EVENT), multiset{}, multiset{}))
  {
    hide ConnName;
  }

  const STALE_SHUTDOWN: seq<Label> := ToClose([CheckShutdown(0)], {Hup}, false, [SetDisconnecting(0, false)] + [])

  /** shutdown() checks kConnected, the loop closes, and the late store turns kDisconnected back. */
  lemma StaleShutdownGoesBack()
    ensures Init(START) && Executes(START, STALE_SHUTDOWN)
    ensures var w := Final(START, STALE_SHUTDOWN);
            |w.conns| == 1 && w.conns[0].closes == 1 && w.conns[0].state == Disconnecting
  {
    var t := multiset{0};
    var w1 := At(Handling(0, [], false, []), [], [Destroy(0)], [CLOSED], false, OFF, multiset{}, t);
    var w' := At(Handling(0, [], false, []), [], [Destroy(0)], [CLOSED.(state := Disconnecting)], false, OFF,
                 multiset{HalfClose(0)}, multiset{});
    assert Reaches(START, STALE_SHUTDOWN, w') by {
      assert Step(w1, SetDisconnecting(0, false), w') && Sound(w') by {
        hide ConnName;
        assert Apply(w1, SetDisconnecting(0, false)).conns == w'.conns;
      }
      Stop(w');
      StepThen(w1, SetDisconnecting(0, false), w', [], w');
      assert Callbacks({Hup}) == [CloseCallback] + [];
      CloseThen([CheckShutdown(0)], multiset{}, t, {Hup}, false, [], [SetDisconnecting(0, false)] + [], w');
    }
    StartSound();
  }

  // ---------------------------------------------------------------- a down that never comes

  const LEAVING := OPEN.(state := Disconnecting)
  const LEFT := LEAVING.(erased := 1, dropped := 1, destroyed := 1)

  /** The poller after the destructor has removed a connection whose interest was still on. */
  const CAST_OFF: Poller<Slot, nat> := Poller(map[], map[], map[0 := Chan(SLOT, READ_EVENT, New)], 0)

  lemma ShutdownStep()
    ensures Step(At(Dispatching([]), [], [], [OPEN], true, On(READ_EVENT), multiset{}, multiset{0}),
                 SetDisconnecting(0, true),
                 At(Dispatching([]), [], [], [LEAVING], true, On(READ_EVENT), multiset{}, multiset{}))
  {
    hide ConnName;
    var w := At(Dispatching([]), [], [], [OPEN], true, On(READ_EVENT), multiset{}, multiset{0});
    assert Apply(w, SetDisconnecting(0, true)).conns == [LEAVING];
  }

  lemma LeavingSound()
    ensures Sound(At(Polling, [], [], [LEAVING], true, On(READ_EVENT), multiset{}, multiset{}))
  {
    hide ConnName;
  }

  lemma CastOff()
    ensures RemoveChannel(On(READ_EVENT), 0) == CAST_OFF
  {
  }

  lemma ServerLeaves()
    ensures var w := At(Polling, [], [], [LEAVING], true, On(READ_EVENT), multiset{}, multiset{});
            Step(w, DestroyServer, w.(gone := true))
  {
    hide ConnName;
  }

  lemma ServerGoes()
    ensures var w := At(Polling, [], [], [LEAVING], true, On(READ_EVENT), multiset{}, multiset{});
            Step(w.(gone := true), DropConnection(0),
                 w.(gone := true, names := map[], conns := [LEFT], poller := CAST_OFF))
  {
    hide ConnName, RemoveChannel;
    CastOff();
    var w := At(Polling, [], [], [LEAVING], true, On(READ_EVENT), multiset{}, multiset{}).(gone := true);
    assert Name(w, 0) == ConnName(SERVER, ADDRESS, 1);
    var r := Apply(w, DropConnection(0));
    assert r.conns == [LEFT] && r.names == map[];
    assert r.poller == CAST_OFF;
  }

  const SILENT_END: seq<Label> :=
    [PollReturn(0, [])] + ([Accept(5, 0)] + ([CheckShutdown(0)] + ([SetDisconnecting(0, true)] + ([SwapPending(0)]
    + ([EndBatch(0)] + ([DestroyServer] + ([DropConnection(0)] + [])))))))

  /** A connection is shut down by its own up callback, and then the server is destroyed: one up, no down. */
  lemma SilentEnd()
    ensures Init(START) && Executes(START, SILENT_END)
    ensures var w := Final(START, SILENT_END);
            |w.conns| == 1 && w.conns[0].ups == 1 && w.conns[0].downs == 0 && w.conns[0].destroyed == 1
  {
    SilentEndRuns();
    StartSound();
  }

  lemma SilentEndRuns()
    ensures exists w' :: Reaches(START, SILENT_END, w') && w'.conns == [LEFT]
  {
    hide ConnName, Step, Reaches, At, Sound;
    var none: multiset<Task> := multiset{};
    var s: multiset<nat> := multiset{};
    var p := On(READ_EVENT);
    var w := At(Polling, [], [], [LEAVING], true, p, none, s);
    var w' := w.(gone := true, names := map[], conns := [LEFT], poller := CAST_OFF);
    ServerLeaves();
    ServerGoes();
    StopAfter(w.(gone := true), DropConnection(0), w');
    var run := [DropConnection(0)] + [];
    StepThen(w, DestroyServer, w.(gone := true), run, w');
    run := [DestroyServer] + run;
    LeavingSound();
    IdleRound([LEAVING], true, p, none, s);
    StepThen(At(Running, [], [], [LEAVING], true, p, none, s), EndBatch(0), w, run, w');
    run := [EndBatch(0)] + run;
    StepThen(At(Dispatching([]), [], [], [LEAVING], true, p, none, s), SwapPending(0),
             At(Running, [], [], [LEAVING], true, p, none, s), run, w');
    run := [SwapPending(0)] + run;
    ShutdownStep();
    StepThen(At(Dispatching([]), [], [], [OPEN], true, p, none, multiset{0}), SetDisconnecting(0, true),
             At(Dispatching([]), [], [], [LEAVING], true, p, none, s), run, w');
    run := [SetDisconnecting(0, true)] + run;
    CheckThen([CheckShutdown(0)], none, multiset{0}, run, w');
    run := [CheckShutdown(0)] + run;
    AcceptStep();
    StepThen(At(Dispatching([]), [], [], [], false, NO_POLLER, none, s), Accept(5, 0),
             At(Dispatching([]), [], [], [OPEN], true, p, none, s), run, w');
    run := [Accept(5, 0)] + run;
    StartSound();
    IdleRound([], false, NO_POLLER, none, s);
    StepThen(START, PollReturn(0, []), At(Dispatching([]), [], [], [], false, NO_POLLER, none, s), run, w');
  }

  lemma StopAfter(w: World, a: Label, w': World)
    requires Step(w, a, w')
    ensures Reaches(w, [a] + [], w')
  {
    hide Enabled, Apply;
    assert Sound(w') && Reaches(w', [], w');
    StepThen(w, a, w', [], w');
  }
}
