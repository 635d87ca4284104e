/**
 * The steps of the life-cycle machine told a second time, field by field, and the law of dispatch:
 * every channel epoll reports gets its callbacks, each once and in order.
 */
module LifecycleLaws {
  import opened ConnState
  import opened Registry
  import opened Dispatch
  import opened Naming
  import opened Lifecycle
  import opened LifecycleInv
  import opened LifecycleSteps
  import opened LifecycleRuns

  datatype Posting = Nothing | Posted(l: nat, t: Task)

  /** All that a handler does: fields and interest of one connection, its entry, one task queued at most. */
  datatype Deed = Deed(c: nat, k: Conn, events: Mask, unlists: bool, posting: Posting)

  /** `r` is `w` after the deed. */
  ghost predicate Does(w: World, r: World, d: Deed)
    requires Sound(w) && d.c < |w.conns|
  {
    && r.conns == w.conns[d.c := d.k]
    && r.names == (if d.unlists then w.names - {Name(w, d.c)} else w.names)
    && r.poller.chans.Keys == w.poller.chans.Keys
    && (forall c <- w.poller.chans :: c != d.c ==> r.poller.chans[c] == w.poller.chans[c])
    && r.poller.chans[d.c].events == d.events
    && (match d.posting
        case Nothing => r.loops == w.loops
        case Posted(l, t) =>
          l < |w.loops| && r.loops == w.loops[l := w.loops[l].(pending := w.loops[l].pending + [t])])
    && r.gone == w.gone && r.raw == w.raw && r.stopping == w.stopping && r.server == w.server && r.addr == w.addr
  }

  /** A handler that changes nothing. */
  function Idle(w: World, c: nat): Deed
    requires Sound(w) && c < |w.conns|
  {
    Deed(c, w.conns[c], w.poller.chans[c].events, false, Nothing)
  }

  function SendDeed(w: World, c: nat, o: Outcome): Deed
    requires Sound(w) && c < |w.conns|
  {
    var idle := Idle(w, c);
    if w.conns[c].state == Disconnecting then idle else
    match o
    case Partial => idle.(events := idle.events + {Out})
    case Quiet => idle
    case Told => idle.(posting := Posted(w.conns[c].loop, Notify(c)))
  }

  function DestroyDeed(w: World, c: nat): Deed
    requires Sound(w) && c < |w.conns|
  {
    var idle := Idle(w, c);
    var k := idle.k;
    if k.state == Connected then
      idle.(k := k.(state := Disconnected, destroyed := k.destroyed + 1, downs := k.downs + 1, forced := k.forced + 1),
            events := {})
    else idle.(k := k.(destroyed := k.destroyed + 1))
  }

  function TaskDeed(w: World, t: Task, o: Outcome): Deed
    requires Sound(w) && t.c < |w.conns|
  {
    var idle := Idle(w, t.c);
    var k := idle.k;
    match t
    case Establish(_) =>
      idle.(k := k.(state := Connected, ups := k.ups + 1, established := k.established + 1),
            events := idle.events + {In, Pri})
    case Remove(c) => idle.(k := k.(erased := k.erased + 1), unlists := true, posting := Posted(k.loop, Destroy(c)))
    case Destroy(c) => DestroyDeed(w, c)
    case Send(c) => SendDeed(w, c, o)
    case Notify(_) => idle
    case HalfClose(_) => idle
  }

  function CloseDeed(w: World, c: nat): Deed
    requires Sound(w) && c < |w.conns|
  {
    var k := w.conns[c];
    var main := k.loop == 0;
    Deed(c, k.(state := Disconnected, downs := k.downs + 1, closes := k.closes + 1,
               erased := if main then k.erased + 1 else k.erased),
         {}, main, Posted(0, if main then Destroy(c) else Remove(c)))
  }

  function WriteDeed(w: World, c: nat, o: Outcome): Deed
    requires Sound(w) && c < |w.conns|
  {
    var idle := Idle(w, c);
    if Out !in idle.events || o == Partial then idle else
    idle.(events := idle.events - {Out}, posting := if o == Told then Posted(w.conns[c].loop, Notify(c)) else Nothing)
  }

  function DropDeed(w: World, c: nat): Deed
    requires Sound(w) && c < |w.conns|
  {
    var l := w.conns[c].loop;
    var d := if l == 0 then DestroyDeed(w, c) else Idle(w, c).(posting := Posted(l, Destroy(c)));
    d.(k := d.k.(erased := d.k.erased + 1, dropped := d.k.dropped + 1), unlists := true)
  }

  // ---------------------------------------------------------------- each handler does its deed

  lemma EventsOf(p: Poller<Slot, nat>, c: nat, events: Mask)
    requires c in p.chans
    ensures SetEvents(p, c, events).chans[c].events == events
    ensures RemoveChannel(p, c).chans.Keys == p.chans.Keys
    ensures RemoveChannel(p, c).chans[c].events == p.chans[c].events
  {
  }

  lemma WritingIsOut(p: Poller<Slot, nat>, c: nat)
    requires c in p.chans
    ensures p.chans[c].IsWriting() <==> Out in p.chans[c].events
  {
    InterestBits(p, c, Out);
  }

  lemma EstablishDoes(w: World, c: nat)
    requires Sound(w) && c < |w.conns|
    ensures Does(w, ConnectEstablished(w, c), TaskDeed(w, Establish(c), Quiet))
  {
    hide SetEvents, LoopSound, Name;
    EventsOf(w.poller, c, w.poller.chans[c].events + READ_EVENT);
    ChansLeft(w.poller, c, w.poller.chans[c].events + READ_EVENT);
  }

  lemma DestroyDoes(w: World, c: nat)
    requires Sound(w) && c < |w.conns|
    ensures Does(w, ConnectDestroyed(w, c), DestroyDeed(w, c))
  {
    hide SetEvents, RemoveChannel, LoopSound, Name;
    EventsOf(w.poller, c, NO_EVENT);
    ChansLeft(w.poller, c, NO_EVENT);
    var p := DisableAll(w.poller, c);
    EventsOf(p, c, NO_EVENT);
    ChansLeft(p, c, NO_EVENT);
  }

  lemma RemoveDoes(w: World, c: nat)
    requires Sound(w) && c < |w.conns|
    ensures Does(w, RemoveInLoop(w, c), TaskDeed(w, Remove(c), Quiet))
  {
    hide LoopSound, ConnName;
  }

  lemma SendDoes(w: World, c: nat, o: Outcome)
    requires Sound(w) && c < |w.conns|
    ensures Does(w, SendInLoop(w, c, o), SendDeed(w, c, o))
  {
    hide SetEvents, LoopSound, Name;
    WritingIsOut(w.poller, c);
    var events := w.poller.chans[c].events;
    if w.conns[c].state == Disconnecting || !o.Partial? || Out in events {
      assert Out in events ==> events + {Out} == events;
    } else {
      EventsOf(w.poller, c, events + WRITE_EVENT);
      ChansLeft(w.poller, c, events + WRITE_EVENT);
    }
  }

  lemma WriteDoes(w: World, c: nat, o: Outcome)
    requires Sound(w) && c < |w.conns|
    ensures Does(w, HandleWrite(w, c, o), WriteDeed(w, c, o))
  {
    hide SetEvents, LoopSound, Name;
    WritingIsOut(w.poller, c);
    EventsOf(w.poller, c, w.poller.chans[c].events - WRITE_EVENT);
    ChansLeft(w.poller, c, w.poller.chans[c].events - WRITE_EVENT);
  }

  lemma CloseDoes(w: World, c: nat)
    requires Sound(w) && c < |w.conns|
    ensures Does(w, HandleClose(w, c), CloseDeed(w, c))
  {
    hide SetEvents, LoopSound, ConnName, HandleClose;
    HandleCloseShape(w, c);
    EventsOf(w.poller, c, NO_EVENT);
    ChansLeft(w.poller, c, NO_EVENT);
  }

  lemma DropDoes(w: World, c: nat)
    requires Sound(w) && c < |w.conns|
    ensures Does(w, Drop(w, c), DropDeed(w, c))
  {
    hide LoopSound, ConnName, ConnectDestroyed, Drop;
    var k := w.conns[c].(erased := w.conns[c].erased + 1, dropped := w.conns[c].dropped + 1);
    var w1 := Changed(w, c, k, w.poller, true);
    UnlistSound(w, c, k);
    if k.loop == 0 {
      DestroyDoes(w1, c);
      assert w.conns[c := k][c := DestroyDeed(w1, c).k] == w.conns[c := DestroyDeed(w1, c).k];
      DropMainIs(w, c);
    } else {
      DropIoShape(w, c);
    }
  }

  lemma UnlistSound(w: World, c: nat, k: Conn)
    requires Sound(w) && c < |w.conns| && k.loop == w.conns[c].loop
    ensures Sound(Changed(w, c, k, w.poller, true))
  {
  }

  lemma DropMainIs(w: World, c: nat)
    requires Sound(w) && c < |w.conns| && w.conns[c].loop == 0
    ensures var k := w.conns[c].(erased := w.conns[c].erased + 1, dropped := w.conns[c].dropped + 1);
            var w1 := Changed(w, c, k, w.poller, true);
            Sound(w1) && Drop(w, c) == ConnectDestroyed(w1, c)
  {
    hide LoopSound, ConnName, ConnectDestroyed;
  }

  lemma TaskDoes(w: World, t: Task, o: Outcome)
    requires Sound(w) && t.c < |w.conns|
    ensures Does(w, RunOne(w, t, o), TaskDeed(w, t, o))
  {
    hide Sound, Does, ConnectEstablished, RemoveInLoop, ConnectDestroyed, SendInLoop, SendDeed, DestroyDeed;
    match t
    case Establish(c) => EstablishDoes(w, c);
    case Remove(c) => RemoveDoes(w, c);
    case Destroy(c) => DestroyDoes(w, c);
    case Send(c) => SendDoes(w, c, o);
    case Notify(c) => IdleDoes(w, c);
    case HalfClose(c) => IdleDoes(w, c);
  }

  lemma IdleDoes(w: World, c: nat)
    requires Sound(w) && c < |w.conns|
    ensures Does(w, w, Idle(w, c))
  {
    hide LoopSound, Name;
  }

  // ---------------------------------------------------------------- each step

  /** Loop `l` with another phase. */
  function InPhase(w: World, l: nat, phase: Phase): World
    requires l < |w.loops|
  {
    w.(loops := w.loops[l := w.loops[l].(phase := phase)])
  }

  /** The callback a handling loop makes next ends in handleClose. */
  predicate NextCloses(phase: Phase) {
    phase.Handling? && phase.todo != []
    && (phase.todo[0] == CloseCallback || (phase.todo[0] == ReadCallback && phase.eof))
  }

  /** A queued task: the head leaves its batch, and its deed is done. */
  lemma RunTaskLaw(w: World, l: nat, o: Outcome)
    requires Sound(w) && Enabled(w, RunTask(l, o))
    ensures var b := w.(loops := w.loops[l := w.loops[l].(batch := w.loops[l].batch[1..])]);
            && w.loops[l].batch[0].c < |w.conns| && Sound(b)
            && Does(b, Apply(w, RunTask(l, o)), TaskDeed(b, w.loops[l].batch[0], o))
  {
    hide RunOne, Does, TaskDeed;
    assert LoopSound(w.loops[l], |w.conns|) && w.loops[l].batch[0].c < |w.conns|;
    TaskDoes(TakeTask(w, l), w.loops[l].batch[0], o);
  }

  /** A callback: it leaves the list, and closes, writes or does nothing here. */
  lemma RunCallbackLaw(w: World, l: nat, o: Outcome)
    requires Sound(w) && Enabled(w, RunCallback(l, o))
    ensures var ph := w.loops[l].phase;
            var b := InPhase(w, l, Handling(ph.c, ph.todo[1..], ph.eof, ph.rest));
            && ph.c < |w.conns| && Sound(b)
            && Does(b, Apply(w, RunCallback(l, o)),
                    if NextCloses(ph) then CloseDeed(b, ph.c)
                    else if ph.todo[0] == WriteCallback then WriteDeed(b, ph.c, o)
                    else Idle(b, ph.c))
  {
    hide HandleClose, HandleWrite, Does, CloseDeed, WriteDeed;
    assert LoopSound(w.loops[l], |w.conns|);
    var ph := w.loops[l].phase;
    var b := InPhase(w, l, Handling(ph.c, ph.todo[1..], ph.eof, ph.rest));
    assert b == SetPhase(w, l, ph.(todo := ph.todo[1..]));
    CloseDoes(b, ph.c);
    WriteDoes(b, ph.c, o);
    IdleDoes(b, ph.c);
  }

  /** A send on the loop's own thread, and a connection dropped by the destructor. */
  lemma DirectLaw(w: World, a: Label)
    requires Sound(w) && Enabled(w, a) && (a.LocalSend? || a.DropConnection?)
    ensures a.c < |w.conns|
            && Does(w, Apply(w, a), if a.LocalSend? then SendDeed(w, a.c, a.o) else DropDeed(w, a.c))
  {
    hide SendInLoop, Drop, Does, SendDeed, DropDeed;
    match a
    case LocalSend(c, o) => SendDoes(w, c, o);
    case DropConnection(c) => DropDoes(w, c);
  }

  /** A new connection of the main loop is up at once, one of another loop when that gets to it. */
  lemma AcceptLaw(w: World, fd: nat, io: nat)
    requires Sound(w) && Enabled(w, Accept(fd, io))
    ensures var r := Apply(w, Accept(fd, io));
            var c := |w.conns|;
            var up := io == 0;
            && r.conns == w.conns + [Conn(io, fd, if up then Connected else Connecting, if up then 1 else 0, 0,
                                          if up then 1 else 0, 0, 0, 0, 0, 0)]
            && r.names == w.names[Name(w, c) := c]
            && r.poller.chans.Keys == w.poller.chans.Keys + {c}
            && (forall d <- w.poller.chans :: r.poller.chans[d] == w.poller.chans[d])
            && r.poller.chans[c].key == Slot(io, fd)
            && r.poller.chans[c].events == (if up then {In, Pri} else {})
            && r.loops == (if up then w.loops
                           else w.loops[io := w.loops[io].(pending := w.loops[io].pending + [Establish(c)])])
            && r.gone == w.gone && r.raw == w.raw && r.stopping == w.stopping
            && r.server == w.server && r.addr == w.addr
  {
    hide SetEvents, ConnName, NewConnection, LoopSound, Owned;
    NewConnectionShape(w, fd, io);
    var w1 := Created(w, fd, io);
    EventsOf(w1.poller, |w.conns|, READ_EVENT);
    ChansLeft(w1.poller, |w.conns|, READ_EVENT);
    KeyOf(w1.poller, |w.conns|, READ_EVENT);
  }

  lemma KeyOf(p: Poller<Slot, nat>, c: nat, events: Mask)
    requires c in p.chans
    ensures SetEvents(p, c, events).chans[c].key == p.chans[c].key
  {
  }

  /** All other steps, world by world. */
  lemma PlainLaw(w: World, a: Label)
    requires Sound(w) && Enabled(w, a)
    requires !a.RunTask? && !a.RunCallback? && !a.LocalSend? && !a.DropConnection? && !a.Accept?
    ensures Apply(w, a) == (
              match a
              case PollReturn(l, active) => InPhase(w, l, Dispatching(active))
              case BeginEvent(l, eof) =>
                var active := w.loops[l].phase.active;
                InPhase(w, l, if Owned(w, active[0].c)
                              then Handling(active[0].c, Callbacks(active[0].revents), eof, active[1..])
                              else Dispatching(active[1..]))
              case EndEvent(l) => InPhase(w, l, Dispatching(w.loops[l].phase.rest))
              case SwapPending(l) => w.(loops := w.loops[l := Loop(Running, w.loops[l].batch + w.loops[l].pending, [])])
              case EndBatch(l) => InPhase(w, l, Polling)
              case CheckSend(c) => w.(raw := w.raw + multiset{Send(c)})
              case PushRaw(t) =>
                var l := w.conns[t.c].loop;
                w.(raw := w.raw - multiset{t},
                   loops := w.loops[l := w.loops[l].(pending := w.loops[l].pending + [t])])
              case CheckShutdown(c) => w.(stopping := w.stopping + multiset{c})
              case SetDisconnecting(c, local) =>
                w.(stopping := w.stopping - multiset{c},
                   raw := if local then w.raw else w.raw + multiset{HalfClose(c)},
                   conns := w.conns[c := w.conns[c].(state := Disconnecting)])
              case DestroyServer => w.(gone := true)
              case _ => w)
  {
    hide LoopSound, Owned, Callbacks;
  }

  // ---------------------------------------------------------------- the law of dispatch

  /** One callback due on one connection. */
  datatype Call = Call(c: nat, callback: Callback)

  function CallsOf(c: nat, callbacks: seq<Callback>): seq<Call> {
    if callbacks == [] then [] else [Call(c, callbacks[0])] + CallsOf(c, callbacks[1..])
  }

  /** The callbacks due for a list of reported channels. */
  function CallsFor(active: seq<Ready>): seq<Call> {
    if active == [] then [] else CallsOf(active[0].c, Callbacks(active[0].revents)) + CallsFor(active[1..])
  }

  /** What a loop still has to call before it swaps its queues. */
  function Outstanding(phase: Phase): seq<Call> {
    match phase
    case Dispatching(active) => CallsFor(active)
    case Handling(c, todo, _, rest) => CallsOf(c, todo) + CallsFor(rest)
    case _ => []
  }

  /** The call a step of loop `l` makes. */
  function MadeBy(w: World, a: Label, l: nat): seq<Call>
    requires l < |w.loops|
  {
    if a.RunCallback? && a.l == l && w.loops[l].phase.Handling? && w.loops[l].phase.todo != []
    then [Call(w.loops[l].phase.c, w.loops[l].phase.todo[0])] else []
  }

  lemma PhaseStays(w: World, a: Label, l: nat)
    requires Sound(w) && Enabled(w, a) && l < |w.loops|
    requires !(a.PollReturn? && a.l == l) && !(a.BeginEvent? && a.l == l) && !(a.RunCallback? && a.l == l)
    requires !(a.EndEvent? && a.l == l) && !(a.SwapPending? && a.l == l) && !(a.EndBatch? && a.l == l)
    ensures |Apply(w, a).loops| == |w.loops| && Apply(w, a).loops[l].phase == w.loops[l].phase
  {
    hide Apply, Sound, Owned, Callbacks;
    match a
    case RunTask(i, o) => TaskLoops(w, i, o);
    case RunCallback(i, o) => CallbackLoops(w, i, o);
    case LocalSend(_, _) => DirectLoops(w, a);
    case DropConnection(_) => DirectLoops(w, a);
    case Accept(fd, io) => AcceptLoops(w, fd, io);
    case _ => PlainLoops(w, a);
  }

  /** Deeds leave every phase alone. */
  lemma DoesPhases(w: World, r: World, d: Deed)
    requires Sound(w) && d.c < |w.conns| && Does(w, r, d)
    ensures |r.loops| == |w.loops| && forall l | 0 <= l < |w.loops| :: r.loops[l].phase == w.loops[l].phase
  {
    hide Sound;
  }

  lemma TaskLoops(w: World, l: nat, o: Outcome)
    requires Sound(w) && Enabled(w, RunTask(l, o))
    ensures var r := Apply(w, RunTask(l, o));
            |r.loops| == |w.loops| && forall i | 0 <= i < |w.loops| :: r.loops[i].phase == w.loops[i].phase
  {
    hide Apply, Does, TaskDeed, LoopSound;
    RunTaskLaw(w, l, o);
    var b := w.(loops := w.loops[l := w.loops[l].(batch := w.loops[l].batch[1..])]);
    DeedOfTask(b, w.loops[l].batch[0], o);
    DoesPhases(b, Apply(w, RunTask(l, o)), TaskDeed(b, w.loops[l].batch[0], o));
  }

  lemma DeedOfTask(w: World, t: Task, o: Outcome)
    requires Sound(w) && t.c < |w.conns|
    ensures TaskDeed(w, t, o).c == t.c
  {
    hide Sound;
  }

  lemma CallbackLoops(w: World, l: nat, o: Outcome)
    requires Sound(w) && Enabled(w, RunCallback(l, o))
    ensures var ph := w.loops[l].phase;
            var r := Apply(w, RunCallback(l, o));
            && |r.loops| == |w.loops|
            && (forall i | 0 <= i < |w.loops| && i != l :: r.loops[i].phase == w.loops[i].phase)
            && r.loops[l].phase == Handling(ph.c, ph.todo[1..], ph.eof, ph.rest)
  {
    hide Apply, Does, CloseDeed, WriteDeed, LoopSound;
    RunCallbackLaw(w, l, o);
    var ph := w.loops[l].phase;
    var b := InPhase(w, l, Handling(ph.c, ph.todo[1..], ph.eof, ph.rest));
    DeedsOf(b, ph.c, o);
    DoesPhases(b, Apply(w, RunCallback(l, o)),
               if NextCloses(ph) then CloseDeed(b, ph.c)
               else if ph.todo[0] == WriteCallback then WriteDeed(b, ph.c, o)
               else Idle(b, ph.c));
  }

  lemma DeedsOf(w: World, c: nat, o: Outcome)
    requires Sound(w) && c < |w.conns|
    ensures CloseDeed(w, c).c == c && WriteDeed(w, c, o).c == c && SendDeed(w, c, o).c == c && DropDeed(w, c).c == c
  {
    hide Sound;
  }

  lemma DirectLoops(w: World, a: Label)
    requires Sound(w) && Enabled(w, a) && (a.LocalSend? || a.DropConnection?)
    ensures var r := Apply(w, a);
            |r.loops| == |w.loops| && forall i | 0 <= i < |w.loops| :: r.loops[i].phase == w.loops[i].phase
  {
    hide Apply, Does, SendDeed, DropDeed, LoopSound;
    DirectLaw(w, a);
    DeedsOf(w, a.c, if a.LocalSend? then a.o else Quiet);
    DoesPhases(w, Apply(w, a), if a.LocalSend? then SendDeed(w, a.c, a.o) else DropDeed(w, a.c));
  }

  lemma PlainLoops(w: World, a: Label)
    requires Sound(w) && Enabled(w, a)
    requires !a.RunTask? && !a.RunCallback? && !a.LocalSend? && !a.DropConnection? && !a.Accept?
    ensures var r := Apply(w, a);
            && |r.loops| == |w.loops|
            && forall i | 0 <= i < |w.loops| ::
                 r.loops[i].phase == w.loops[i].phase
                 || ((a.PollReturn? || a.BeginEvent? || a.EndEvent? || a.SwapPending? || a.EndBatch?) && a.l == i)
  {
    hide Apply, LoopSound, Owned, Callbacks;
    PlainLaw(w, a);
  }

  lemma AcceptLoops(w: World, fd: nat, io: nat)
    requires Sound(w) && Enabled(w, Accept(fd, io))
    ensures var r := Apply(w, Accept(fd, io));
            |r.loops| == |w.loops| && forall i | 0 <= i < |w.loops| :: r.loops[i].phase == w.loops[i].phase
  {
    hide Apply, LoopSound, Owned;
    AcceptLaw(w, fd, io);
  }

  lemma HandlingBegins(w: World, l: nat, eof: bool)
    requires Sound(w) && Inv(w) && Enabled(w, BeginEvent(l, eof))
    ensures var active := w.loops[l].phase.active;
            Apply(w, BeginEvent(l, eof))
            == InPhase(w, l, Handling(active[0].c, Callbacks(active[0].revents), eof, active[1..]))
  {
    hide Agreement, Views, OpenFdsDistinct, TasksPlaced, DispatchInv, NamesInv, GoneInv, LoopSound, Owned, Callbacks;
    HeadUndestroyed(w, l);
    UndestroyedOwned(w, w.loops[l].phase.active[0].c);
    PlainLaw(w, BeginEvent(l, eof));
  }

  /** Every step of a dispatch makes the first of the outstanding calls, or none and leaves them all. */
  lemma OutstandingStep(w: World, a: Label, l: nat)
    requires Sound(w) && Inv(w) && Enabled(w, a) && l < |w.loops|
    requires !(a.PollReturn? && a.l == l)
    ensures |Apply(w, a).loops| == |w.loops|
    ensures Outstanding(w.loops[l].phase) == MadeBy(w, a, l) + Outstanding(Apply(w, a).loops[l].phase)
  {
    hide Inv, Sound, Apply, Callbacks, Owned;
    if a.BeginEvent? && a.l == l {
      HandlingBegins(w, l, a.eof);
    } else if a.RunCallback? && a.l == l {
      CallbackLoops(w, l, a.o);
    } else if (a.EndEvent? || a.SwapPending? || a.EndBatch?) && a.l == l {
      PlainLaw(w, a);
    } else {
      PhaseStays(w, a, l);
    }
  }

  /** All calls that loop `l` makes in the run. */
  ghost function Made(w: World, run: seq<Label>, l: nat): seq<Call>
    requires Sound(w) && Executes(w, run) && l < |w.loops|
    decreases |run|
  {
    if run == [] then [] else
    LoopsStay(w, run[0]);
    MadeBy(w, run[0], l) + Made(Apply(w, run[0]), run[1..], l)
  }

  lemma LoopsStay(w: World, a: Label)
    requires Sound(w) && Enabled(w, a)
    ensures |Apply(w, a).loops| == |w.loops|
  {
    hide Apply, Sound, Owned, Callbacks;
    match a
    case RunTask(i, o) => TaskLoops(w, i, o);
    case RunCallback(i, o) => CallbackLoops(w, i, o);
    case LocalSend(_, _) => DirectLoops(w, a);
    case DropConnection(_) => DirectLoops(w, a);
    case Accept(fd, io) => AcceptLoops(w, fd, io);
    case _ => PlainLoops(w, a);
  }

  ghost predicate NoPoll(run: seq<Label>, l: nat) {
    forall a <- run :: !(a.PollReturn? && a.l == l)
  }

  lemma {:induction false} OutstandingRun(w: World, run: seq<Label>, l: nat)
    requires Sound(w) && Inv(w) && Executes(w, run) && TimelyRun(w, run) && l < |w.loops| && NoPoll(run, l)
    ensures |Final(w, run).loops| == |w.loops|
    ensures Outstanding(w.loops[l].phase) == Made(w, run, l) + Outstanding(Final(w, run).loops[l].phase)
    decreases |run|
  {
    hide Inv, Sound, Apply, Enabled, TimelyLabel, Outstanding, MadeBy;
    if run != [] {
      assert run[0] in run;
      StepKeeps(w, run[0]);
      OutstandingStep(w, run[0], l);
      OutstandingRun(Apply(w, run[0]), run[1..], l);
    }
  }

  /**
   * From the moment epoll reports `active` to a loop until the loop is about to swap its queues, it
   * makes exactly the callbacks due for each reported channel, channel by channel in the order of the
   * report, whatever the other loops and threads do meanwhile.
   */
  lemma DispatchComplete(w: World, l: nat, active: seq<Ready>, run: seq<Label>)
    requires Sound(w) && Inv(w) && Enabled(w, PollReturn(l, active))
    requires var w1 := Apply(w, PollReturn(l, active));
             && Executes(w1, run) && TimelyRun(w1, run) && NoPoll(run, l)
             && Enabled(Final(w1, run), SwapPending(l))
    ensures var w1 := Apply(w, PollReturn(l, active));
            l < |w1.loops| && Made(w1, run, l) == CallsFor(active)
  {
    hide Inv, Sound, Executes, TimelyRun, Final, CallsFor, LoopSound, NoPoll, Reportable, Apply;
    var a := PollReturn(l, active);
    var w1 := Apply(w, a);
    PlainLaw(w, a);
    StepKeeps(w, a);
    OutstandingRun(w1, run, l);
    NothingLeft();
  }

  lemma NothingLeft()
    ensures CallsFor([]) == []
  {
  }

  // ---------------------------------------------------------------- an open connection can be heard

  /** From its establishment to its close a connection is in its loop's epoll set, for reading at least. */
  lemma OpenIsRegistered(w0: World, run: seq<Label>, c: nat)
    requires Init(w0) && Sound(w0) && Executes(w0, run) && TimelyRun(w0, run) && c < |Final(w0, run).conns|
    requires var k := Final(w0, run).conns[c]; k.established == 1 && k.closes == 0 && k.destroyed == 0
    ensures var w := Final(w0, run);
            var slot := Slot(w.conns[c].loop, w.conns[c].fd);
            && slot in w.poller.kernel && w.poller.kernel[slot] == Entry(c, w.poller.chans[c].events)
            && In in w.poller.chans[c].events && Pri in w.poller.chans[c].events
  {
    hide Executes, Final, TimelyRun, Init, Sound, Inv;
    RunKeeps(w0, run);
    OpenRegistered(Final(w0, run), c);
  }

  lemma OpenRegistered(w: World, c: nat)
    requires Inv(w) && c < |w.conns|
    requires w.conns[c].established == 1 && w.conns[c].closes == 0 && w.conns[c].destroyed == 0
    ensures var slot := Slot(w.conns[c].loop, w.conns[c].fd);
            && slot in w.poller.kernel && w.poller.kernel[slot] == Entry(c, w.poller.chans[c].events)
            && In in w.poller.chans[c].events && Pri in w.poller.chans[c].events
  {
    hide OpenFdsDistinct, TasksPlaced, DispatchInv, NamesInv, GoneInv, QueueInv, CountInv, LoopSound;
    InvView(w, c);
    assert In in READ_EVENT && Pri in READ_EVENT;
    assert Registered(w.poller, c);
  }
}
