/** A concrete run of a server with one io loop in which a send queued in time makes a connection close twice. */
module LifecycleReopen {
  import opened ConnState
  import opened Registry
  import opened Dispatch
  import opened Naming
  import opened Lifecycle
  import opened LifecycleSteps
  import opened LifecycleRuns

  const SERVER := "server"
  const ADDRESS := InetAddress(127, 0, 0, 1, 8000)
  const SLOT := Slot(1, 5)

  /** The main loop has just accepted the server's only connection, fd 5 on the io loop, and is still dispatching. */
  function At(io: Loop, removes: seq<Task>, k: Conn, poller: Poller<Slot, nat>, raw: multiset<Task>): World {
    World(SERVER, ADDRESS, [k], map[ConnName(SERVER, ADDRESS, 1) := 0],
          [Loop(Dispatching([]), [], removes), io], poller, raw, multiset{}, false)
  }

  const START: World := World(SERVER, ADDRESS, [], map[], [Loop(Polling, [], []), Loop(Polling, [], [])],
                              Poller(map[], map[], map[], 0), multiset{}, multiset{}, false)

  const FRESH: Poller<Slot, nat> := Poller(map[], map[], map[0 := Chan(SLOT, NO_EVENT, New)], 0)

  function On(events: Mask): Poller<Slot, nat> {
    Poller(map[SLOT := 0], map[SLOT := Entry(0, events)], map[0 := Chan(SLOT, events, Added)], 0)
  }

  const OFF: Poller<Slot, nat> := Poller(map[SLOT := 0], map[], map[0 := Chan(SLOT, NO_EVENT, New)], 0)

  const CREATED := Conn(1, 5, Connecting, 0, 0, 0, 0, 0, 0, 0, 0)
  const OPEN := Conn(1, 5, Connected, 1, 0, 1, 0, 0, 0, 0, 0)
  const CLOSED := Conn(1, 5, Disconnected, 1, 1, 1, 1, 0, 0, 0, 0)
  const TWICE := CLOSED.(downs := 2, closes := 2)

  const NONE: multiset<Task> := multiset{}
  const SENDING: multiset<Task> := multiset{Send(0)}

  /** The peer has sent its end, and later the connection is hung up. */
  const ENDING: seq<Ready> := [Ready(0, {In})]
  const HANGUP: seq<Ready> := [Ready(0, {Hup})]

  ghost predicate Step(w: World, a: Label, w': World) {
    Sound(w) && Enabled(w, a) && TimelyLabel(w, a) && Apply(w, a) == w'
  }

  /** A run in which every raw task is pushed in time. */
  ghost predicate Reaches(w: World, run: seq<Label>, w': World) {
    Sound(w) && Executes(w, run) && TimelyRun(w, run) && Final(w, run) == w'
  }

  lemma Before(w: World, a: Label, w1: World, rest: seq<Label>, w': World)
    requires Step(w, a, w1) && Reaches(w1, rest, w')
    ensures Reaches(w, [a] + rest, w')
  {
    hide Enabled, Apply, Sound, TimelyLabel;
    assert ([a] + rest)[1..] == rest;
  }

  lemma AcceptSteps()
    ensures Init(START)
    ensures Step(START, PollReturn(0, []), START.(loops := [Loop(Dispatching([]), [], []), Loop(Polling, [], [])]))
    ensures Step(START.(loops := [Loop(Dispatching([]), [], []), Loop(Polling, [], [])]), Accept(5, 1),
                 At(Loop(Polling, [], [Establish(0)]), [], CREATED, FRESH, NONE))
  {
    hide ConnName;
    var w := START.(loops := [Loop(Dispatching([]), [], []), Loop(Polling, [], [])]);
    assert Apply(START, PollReturn(0, [])).loops == w.loops;
    var none: seq<Task> := [];
    assert none + [Establish(0)] == [Establish(0)];
    assert Name(w, 0) == ConnName(SERVER, ADDRESS, 1);
    var r := Apply(w, Accept(5, 1));
    assert r.conns == [CREATED] && r.poller == FRESH;
    assert r.loops == [Loop(Dispatching([]), [], []), Loop(Polling, [], [Establish(0)])];
  }

  /** The io loop swaps what is pending into its batch. */
  lemma SwapSteps(q: seq<Task>, removes: seq<Task>, k: Conn, p: Poller<Slot, nat>, raw: multiset<Task>)
    requires Sound(At(Loop(Polling, [], q), removes, k, p, raw))
    ensures Step(At(Loop(Polling, [], q), removes, k, p, raw), PollReturn(1, []),
                 At(Loop(Dispatching([]), [], q), removes, k, p, raw))
    ensures Step(At(Loop(Dispatching([]), [], q), removes, k, p, raw), SwapPending(1),
                 At(Loop(Running, q, []), removes, k, p, raw))
  {
    hide ConnName, LoopSound;
    var none: seq<Task> := [];
    assert none + q == q;
    LoopsSound(q, removes, k, p, raw);
    var w := At(Loop(Polling, [], q), removes, k, p, raw);
    assert Apply(w, PollReturn(1, [])).loops[1] == Loop(Dispatching([]), [], q);
    var w1 := At(Loop(Dispatching([]), [], q), removes, k, p, raw);
    assert Apply(w1, SwapPending(1)).loops[1] == Loop(Running, q, []);
  }

  lemma LoopsSound(q: seq<Task>, removes: seq<Task>, k: Conn, p: Poller<Slot, nat>, raw: multiset<Task>)
    requires Sound(At(Loop(Polling, [], q), removes, k, p, raw))
    ensures Sound(At(Loop(Dispatching([]), [], q), removes, k, p, raw))
  {
    hide ConnName;
    var w := At(Loop(Polling, [], q), removes, k, p, raw);
    assert LoopSound(w.loops[0], 1) && LoopSound(w.loops[1], 1);
  }

  lemma EndStep(removes: seq<Task>, k: Conn, p: Poller<Slot, nat>, raw: multiset<Task>)
    requires Sound(At(Loop(Running, [], []), removes, k, p, raw))
    ensures Step(At(Loop(Running, [], []), removes, k, p, raw), EndBatch(1),
                 At(Loop(Polling, [], []), removes, k, p, raw))
  {
    hide ConnName, LoopSound;
    var w := At(Loop(Running, [], []), removes, k, p, raw);
    assert Apply(w, EndBatch(1)).loops[1] == Loop(Polling, [], []);
  }

  lemma EstablishStep()
    ensures Step(At(Loop(Running, [Establish(0)], []), [], CREATED, FRESH, NONE), RunTask(1, Quiet),
                 At(Loop(Running, [], []), [], OPEN, On(READ_EVENT), NONE))
    ensures Sound(At(Loop(Running, [], []), [], OPEN, On(READ_EVENT), NONE))
  {
    hide ConnName, SetEvents;
    Switched();
    var w := At(Loop(Running, [Establish(0)], []), [], CREATED, FRESH, NONE);
    assert [Establish(0)][1..] == [];
    var r := Apply(w, RunTask(1, Quiet));
    assert r.loops == [Loop(Dispatching([]), [], []), Loop(Running, [], [])];
    assert r.poller == On(READ_EVENT) && r.conns == [OPEN];
  }

  lemma CheckStep()
    ensures Step(At(Loop(Running, [], []), [], OPEN, On(READ_EVENT), NONE), CheckSend(0),
                 At(Loop(Running, [], []), [], OPEN, On(READ_EVENT), SENDING))
    ensures Sound(At(Loop(Running, [], []), [], OPEN, On(READ_EVENT), SENDING))
  {
    hide ConnName;
  }

  /** epoll reports one event of the registered connection, and the loop begins with its one callback. */
  lemma ReportSteps(removes: seq<Task>, k: Conn, events: Mask, raw: multiset<Task>,
                    revents: Mask, eof: bool, callback: Callback)
    requires k.loop == 1 && Sound(At(Loop(Polling, [], []), removes, k, On(events), raw))
    requires revents <= events + {Hup, Err} && Callbacks(revents) == [callback]
    ensures var ready := [Ready(0, revents)];
            && Step(At(Loop(Polling, [], []), removes, k, On(events), raw), PollReturn(1, ready),
                    At(Loop(Dispatching(ready), [], []), removes, k, On(events), raw))
            && Step(At(Loop(Dispatching(ready), [], []), removes, k, On(events), raw), BeginEvent(1, eof),
                    At(Loop(Handling(0, [callback], eof, []), [], []), removes, k, On(events), raw))
  {
    hide ConnName, LoopSound, Callbacks;
    var ready := [Ready(0, revents)];
    var w := At(Loop(Polling, [], []), removes, k, On(events), raw);
    assert SLOT in w.poller.kernel;
    assert Reportable(w, 1, Ready(0, revents));
    assert Apply(w, PollReturn(1, ready)).loops[1] == Loop(Dispatching(ready), [], []);
    var w1 := At(Loop(Dispatching(ready), [], []), removes, k, On(events), raw);
    assert Apply(w, PollReturn(1, ready)) == w1;
    assert Name(w1, 0) == ConnName(SERVER, ADDRESS, 1);
    assert Listed(w1, 0);
    assert ready[1..] == [];
    assert Apply(w1, BeginEvent(1, eof)).loops[1] == Loop(Handling(0, [callback], eof, []), [], []);
  }

  lemma HandlingSound(callback: Callback, eof: bool, removes: seq<Task>, k: Conn, p: Poller<Slot, nat>,
                      raw: multiset<Task>)
    requires removes == [] || removes == [Remove(0)]
    requires k.loop == 1 && p.chans.Keys == {0}
    ensures Sound(At(Loop(Handling(0, [callback], eof, []), [], []), removes, k, p, raw))
  {
    hide ConnName;
    assert forall c: nat :: c in p.chans <==> c in p.chans.Keys;
  }

  lemma TwiceSound()
    ensures Sound(At(Loop(Handling(0, [], false, []), [], []), [Remove(0), Remove(0)], TWICE, OFF, NONE))
  {
    hide ConnName;
  }

  lemma Switched()
    ensures DisableAll(On(READ_EVENT), 0) == OFF && DisableAll(On(WRITE_EVENT), 0) == OFF
    ensures EnableReading(FRESH, 0) == On(READ_EVENT) && EnableWriting(OFF, 0) == On(WRITE_EVENT)
  {
    assert NO_EVENT + READ_EVENT == READ_EVENT && NO_EVENT + WRITE_EVENT == WRITE_EVENT;
  }

  /** The read of 0 closes, and leaves the connection unregistered. */
  lemma CloseStep()
    ensures Step(At(Loop(Handling(0, [ReadCallback], true, []), [], []), [], OPEN, On(READ_EVENT), SENDING),
                 RunCallback(1, Quiet),
                 At(Loop(Handling(0, [], true, []), [], []), [Remove(0)], CLOSED, OFF, SENDING))
  {
    hide ConnName, SetEvents, Sound;
    Switched();
    HandlingSound(ReadCallback, true, [], OPEN, On(READ_EVENT), SENDING);
    var w := At(Loop(Handling(0, [ReadCallback], true, []), [], []), [], OPEN, On(READ_EVENT), SENDING);
    var none: seq<Task> := [];
    assert none + [Remove(0)] == [Remove(0)];
    assert [ReadCallback][1..] == [];
    var r := Apply(w, RunCallback(1, Quiet));
    assert r.loops == [Loop(Dispatching([]), [], [Remove(0)]), Loop(Handling(0, [], true, []), [], [])];
    assert r.poller == OFF && r.conns == [CLOSED];
  }

  /** The send is pushed while the connection is still in connectionMap_. */
  lemma PushStep()
    ensures Step(At(Loop(Handling(0, [], true, []), [], []), [Remove(0)], CLOSED, OFF, SENDING), PushRaw(Send(0)),
                 At(Loop(Handling(0, [], true, []), [], [Send(0)]), [Remove(0)], CLOSED, OFF, NONE))
  {
    hide ConnName;
    var none: seq<Task> := [];
    assert none + [Send(0)] == [Send(0)];
    var w := At(Loop(Handling(0, [], true, []), [], []), [Remove(0)], CLOSED, OFF, SENDING);
    assert Name(w, 0) == ConnName(SERVER, ADDRESS, 1);
    assert Apply(w, PushRaw(Send(0))).loops[1] == Loop(Handling(0, [], true, []), [], [Send(0)]);
  }

  lemma EndEventStep()
    ensures Step(At(Loop(Handling(0, [], true, []), [], [Send(0)]), [Remove(0)], CLOSED, OFF, NONE), EndEvent(1),
                 At(Loop(Dispatching([]), [], [Send(0)]), [Remove(0)], CLOSED, OFF, NONE))
    ensures Sound(At(Loop(Polling, [], [Send(0)]), [Remove(0)], CLOSED, OFF, NONE))
  {
    hide ConnName;
  }

  lemma SendingSound()
    ensures Sound(At(Loop(Running, [Send(0)], []), [Remove(0)], CLOSED, OFF, NONE))
  {
    hide ConnName;
  }

  /** Falling short, the send registers the closed connection again. */
  lemma ReopenStep()
    ensures Step(At(Loop(Running, [Send(0)], []), [Remove(0)], CLOSED, OFF, NONE), RunTask(1, Partial),
                 At(Loop(Running, [], []), [Remove(0)], CLOSED, On(WRITE_EVENT), NONE))
  {
    hide ConnName, SetEvents, Sound;
    Switched();
    SendingSound();
    var w := At(Loop(Running, [Send(0)], []), [Remove(0)], CLOSED, OFF, NONE);
    assert [Send(0)][1..] == [];
    var r := Apply(w, RunTask(1, Partial));
    assert r.loops == [Loop(Dispatching([]), [], [Remove(0)]), Loop(Running, [], [])];
    assert r.poller == On(WRITE_EVENT);
  }

  lemma ReopenedSound()
    ensures Sound(At(Loop(Running, [], []), [Remove(0)], CLOSED, On(WRITE_EVENT), NONE))
    ensures Sound(At(Loop(Polling, [], []), [Remove(0)], CLOSED, On(WRITE_EVENT), NONE))
  {
    hide ConnName;
  }

  lemma SecondCloseStep()
    ensures Step(At(Loop(Handling(0, [CloseCallback], false, []), [], []), [Remove(0)], CLOSED, On(WRITE_EVENT), NONE),
                 RunCallback(1, Quiet),
                 At(Loop(Handling(0, [], false, []), [], []), [Remove(0), Remove(0)], TWICE, OFF, NONE))
    ensures Sound(At(Loop(Handling(0, [], false, []), [], []), [Remove(0), Remove(0)], TWICE, OFF, NONE))
  {
    hide ConnName, SetEvents, Sound;
    Switched();
    HandlingSound(CloseCallback, false, [Remove(0)], CLOSED, On(WRITE_EVENT), NONE);
    TwiceSound();
    var w := At(Loop(Handling(0, [CloseCallback], false, []), [], []), [Remove(0)], CLOSED, On(WRITE_EVENT), NONE);
    assert [Remove(0)] + [Remove(0)] == [Remove(0), Remove(0)];
    assert [CloseCallback][1..] == [];
    var r := Apply(w, RunCallback(1, Quiet));
    assert r.loops == [Loop(Dispatching([]), [], [Remove(0), Remove(0)]), Loop(Handling(0, [], false, []), [], [])];
    assert r.poller == OFF && r.conns == [TWICE];
  }

  const SECOND_HALF: seq<Label> :=
    [SwapPending(1)] + ([RunTask(1, Partial)] + ([EndBatch(1)] + ([PollReturn(1, HANGUP)] + ([BeginEvent(1, false)]
    + ([RunCallback(1, Quiet)] + [])))))

  const REOPENING: seq<Label> :=
    [PollReturn(0, [])] + ([Accept(5, 1)] + ([PollReturn(1, [])] + ([SwapPending(1)] + ([RunTask(1, Quiet)]
    + ([CheckSend(0)] + ([EndBatch(1)] + ([PollReturn(1, ENDING)] + ([BeginEvent(1, true)] + ([RunCallback(1, Quiet)]
    + ([PushRaw(Send(0))] + ([EndEvent(1)] + SECOND_HALF)))))))))))

  const LAST: World := At(Loop(Handling(0, [], false, []), [], []), [Remove(0), Remove(0)], TWICE, OFF, NONE)

  lemma SecondHalfRuns()
    ensures Reaches(At(Loop(Dispatching([]), [], [Send(0)]), [Remove(0)], CLOSED, OFF, NONE), SECOND_HALF, LAST)
  {
    hide ConnName, Step, Reaches, At, Sound;
    var removes := [Remove(0)];
    var p := On(WRITE_EVENT);
    SecondCloseStep();
    Stop(LAST);
    ReopenStep();
    ReopenedSound();
    assert Callbacks({Hup}) == [CloseCallback];
    ReportSteps(removes, CLOSED, WRITE_EVENT, NONE, {Hup}, false, CloseCallback);
    EndStep(removes, CLOSED, p, NONE);
    EndEventStep();
    SwapSteps([Send(0)], removes, CLOSED, OFF, NONE);
    var run: seq<Label> := [];
    Before(At(Loop(Handling(0, [CloseCallback], false, []), [], []), removes, CLOSED, p, NONE), RunCallback(1, Quiet),
           LAST, run, LAST);
    run := [RunCallback(1, Quiet)] + run;
    Before(At(Loop(Dispatching(HANGUP), [], []), removes, CLOSED, p, NONE), BeginEvent(1, false),
           At(Loop(Handling(0, [CloseCallback], false, []), [], []), removes, CLOSED, p, NONE), run, LAST);
    run := [BeginEvent(1, false)] + run;
    Before(At(Loop(Polling, [], []), removes, CLOSED, p, NONE), PollReturn(1, HANGUP),
           At(Loop(Dispatching(HANGUP), [], []), removes, CLOSED, p, NONE), run, LAST);
    run := [PollReturn(1, HANGUP)] + run;
    Before(At(Loop(Running, [], []), removes, CLOSED, p, NONE), EndBatch(1),
           At(Loop(Polling, [], []), removes, CLOSED, p, NONE), run, LAST);
    run := [EndBatch(1)] + run;
    Before(At(Loop(Running, [Send(0)], []), removes, CLOSED, OFF, NONE), RunTask(1, Partial),
           At(Loop(Running, [], []), removes, CLOSED, p, NONE), run, LAST);
    run := [RunTask(1, Partial)] + run;
    Before(At(Loop(Dispatching([]), [], [Send(0)]), removes, CLOSED, OFF, NONE), SwapPending(1),
           At(Loop(Running, [Send(0)], []), removes, CLOSED, OFF, NONE), run, LAST);
  }

  lemma Stop(w: World)
    requires Sound(w)
    ensures Reaches(w, [], w)
  {
  }

  lemma ReopeningRuns()
    ensures Init(START) && Reaches(START, REOPENING, LAST)
  {
    hide ConnName, Step, Reaches, At, Sound, Init;
    var none: seq<Task> := [];
    var p := On(READ_EVENT);
    SecondHalfRuns();
    var run := SECOND_HALF;
    PushStep();
    EndEventStep();
    Before(At(Loop(Handling(0, [], true, []), [], [Send(0)]), [Remove(0)], CLOSED, OFF, NONE), EndEvent(1),
           At(Loop(Dispatching([]), [], [Send(0)]), [Remove(0)], CLOSED, OFF, NONE), run, LAST);
    run := [EndEvent(1)] + run;
    Before(At(Loop(Handling(0, [], true, []), [], []), [Remove(0)], CLOSED, OFF, SENDING), PushRaw(Send(0)),
           At(Loop(Handling(0, [], true, []), [], [Send(0)]), [Remove(0)], CLOSED, OFF, NONE), run, LAST);
    run := [PushRaw(Send(0))] + run;
    CloseStep();
    Before(At(Loop(Handling(0, [ReadCallback], true, []), [], []), none, OPEN, p, SENDING), RunCallback(1, Quiet),
           At(Loop(Handling(0, [], true, []), [], []), [Remove(0)], CLOSED, OFF, SENDING), run, LAST);
    run := [RunCallback(1, Quiet)] + run;
    CheckStep();
    EndStep(none, OPEN, p, SENDING);
    EndSound();
    assert Callbacks({In}) == [ReadCallback];
    ReportSteps(none, OPEN, READ_EVENT, SENDING, {In}, true, ReadCallback);
    Before(At(Loop(Dispatching(ENDING), [], []), none, OPEN, p, SENDING), BeginEvent(1, true),
           At(Loop(Handling(0, [ReadCallback], true, []), [], []), none, OPEN, p, SENDING), run, LAST);
    run := [BeginEvent(1, true)] + run;
    Before(At(Loop(Polling, [], []), none, OPEN, p, SENDING), PollReturn(1, ENDING),
           At(Loop(Dispatching(ENDING), [], []), none, OPEN, p, SENDING), run, LAST);
    run := [PollReturn(1, ENDING)] + run;
    Before(At(Loop(Running, [], []), none, OPEN, p, SENDING), EndBatch(1),
           At(Loop(Polling, [], []), none, OPEN, p, SENDING), run, LAST);
    run := [EndBatch(1)] + run;
    Before(At(Loop(Running, [], []), none, OPEN, p, NONE), CheckSend(0),
           At(Loop(Running, [], []), none, OPEN, p, SENDING), run, LAST);
    UpRuns([CheckSend(0)] + run);
  }

  lemma EndSound()
    ensures Sound(At(Loop(Polling, [], []), [], OPEN, On(READ_EVENT), SENDING))
    ensures Sound(At(Loop(Polling, [], [Establish(0)]), [], CREATED, FRESH, NONE))
  {
    hide ConnName;
  }

  lemma UpRuns(rest: seq<Label>)
    requires Reaches(At(Loop(Running, [], []), [], OPEN, On(READ_EVENT), NONE), rest, LAST)
    ensures Reaches(START, [PollReturn(0, [])] + ([Accept(5, 1)] + ([PollReturn(1, [])] + ([SwapPending(1)]
                           + ([RunTask(1, Quiet)] + rest)))), LAST)
    ensures Init(START)
  {
    hide ConnName, Step, Reaches, At, Sound, Init;
    var q, none: seq<Task> := [Establish(0)], [];
    EstablishStep();
    Before(At(Loop(Running, q, []), none, CREATED, FRESH, NONE), RunTask(1, Quiet),
           At(Loop(Running, [], []), none, OPEN, On(READ_EVENT), NONE), rest, LAST);
    var run := [RunTask(1, Quiet)] + rest;
    EndSound();
    SwapSteps(q, none, CREATED, FRESH, NONE);
    Before(At(Loop(Dispatching([]), [], q), none, CREATED, FRESH, NONE), SwapPending(1),
           At(Loop(Running, q, []), none, CREATED, FRESH, NONE), run, LAST);
    run := [SwapPending(1)] + run;
    Before(At(Loop(Polling, [], q), none, CREATED, FRESH, NONE), PollReturn(1, []),
           At(Loop(Dispatching([]), [], q), none, CREATED, FRESH, NONE), run, LAST);
    run := [PollReturn(1, [])] + run;
    AcceptSteps();
    var w := START.(loops := [Loop(Dispatching([]), [], []), Loop(Polling, [], [])]);
    Before(w, Accept(5, 1), At(Loop(Polling, [], q), none, CREATED, FRESH, NONE), run, LAST);
    run := [Accept(5, 1)] + run;
    Before(START, PollReturn(0, []), w, run, LAST);
  }

  /** epoll reports nothing but EPOLLIN alone or EPOLLHUP alone. */
  predicate Plain(a: Label) {
    a.PollReturn? ==> a.active == [] || a.active == ENDING || a.active == HANGUP
  }

  lemma ReopeningPlain()
    ensures forall a <- REOPENING :: Plain(a)
  {
    var run: seq<Label> := [];
    run := [RunCallback(1, Quiet)] + run;
    run := [BeginEvent(1, false)] + run;
    run := [PollReturn(1, HANGUP)] + run;
    run := [EndBatch(1)] + run;
    run := [RunTask(1, Partial)] + run;
    run := [SwapPending(1)] + run;
    assert run == SECOND_HALF && forall b <- run :: Plain(b);
    run := [EndEvent(1)] + run;
    run := [PushRaw(Send(0))] + run;
    run := [RunCallback(1, Quiet)] + run;
    run := [BeginEvent(1, true)] + run;
    run := [PollReturn(1, ENDING)] + run;
    run := [EndBatch(1)] + run;
    assert forall b <- run :: Plain(b);
    run := [CheckSend(0)] + run;
    run := [RunTask(1, Quiet)] + run;
    run := [SwapPending(1)] + run;
    run := [PollReturn(1, [])] + run;
    run := [Accept(5, 1)] + run;
    run := [PollReturn(0, [])] + run;
    assert run == REOPENING;
  }

  /**
   * Every push in time and no dispatch of the doubled kind, and still two closes and two downs for one
   * up: on an io loop a send that runs after the peer's end was read reopens the connection before the
   * main loop has removed it, and the hang-up that follows closes it again.
   */
  lemma ReopeningHappens()
    ensures Init(START) && Executes(START, REOPENING) && TimelyRun(START, REOPENING)
    ensures var w := Final(START, REOPENING);
            |w.conns| == 1 && w.conns[0].ups == 1 && w.conns[0].downs == 2 && w.conns[0].closes == 2
    ensures forall a <- REOPENING :: Plain(a)
  {
    hide ConnName, Executes, TimelyRun, Final, Sound, Init, Plain;
    ReopeningPlain();
    ReopeningRuns();
  }
}
