/** What holds in every run of the life-cycle machine. */
module LifecycleRuns {
  import opened ConnState
  import opened Registry
  import opened Dispatch
  import opened Lifecycle
  import opened LifecycleInv
  import opened LifecycleSteps

  /** Every cross-thread send of the run is pushed in time. */
  ghost predicate TimelyRun(w: World, run: seq<Label>)
    requires Sound(w) && Executes(w, run)
    decreases |run|
  {
    run == [] || (TimelyLabel(w, run[0]) && TimelyRun(Apply(w, run[0]), run[1..]))
  }

  lemma InitInv(w: World)
    requires Init(w)
    ensures Inv(w)
  {
    assert forall c: nat :: c !in w.poller.chans;
  }

  lemma {:induction false} RunKeepsFrom(w: World, run: seq<Label>)
    requires Inv(w) && Executes(w, run) && TimelyRun(w, run)
    ensures Inv(Final(w, run))
    decreases |run|
  {
    if run != [] {
      hide Inv;
      StepKeeps(w, run[0]);
      RunKeepsFrom(Apply(w, run[0]), run[1..]);
    }
  }

  lemma RunKeeps(w: World, run: seq<Label>)
    requires Init(w) && Executes(w, run) && TimelyRun(w, run)
    ensures Inv(Final(w, run))
  {
    InitInv(w);
    RunKeepsFrom(w, run);
  }

  // ---------------------------------------------------------------- no dangling channel

  /** The raw channel pointer of `c` may still be followed. */
  predicate Alive(w: World, c: nat) {
    c < |w.conns| && Owned(w, c) && w.conns[c].established == 1 && w.conns[c].destroyed == 0
  }

  /**
   * Every channel in an epoll set or in channels_ belongs to a connection that connectionMap_ or a
   * queued lambda still owns, and no epoll_ctl call is ever refused.
   */
  lemma PollerNeverDangles(w0: World, run: seq<Label>)
    requires Init(w0) && Executes(w0, run) && TimelyRun(w0, run)
    ensures var w := Final(w0, run);
            && (forall slot <- w.poller.kernel :: Alive(w, w.poller.kernel[slot].chan))
            && (forall slot <- w.poller.channels :: Alive(w, w.poller.channels[slot]))
            && w.poller.faults == 0
            && Agreement(w.poller)
  {
    RunKeeps(w0, run);
    var w := Final(w0, run);
    forall slot <- w.poller.channels ensures Alive(w, w.poller.channels[slot]) {
      assert Mapped(w.poller, w.poller.channels[slot]);
      MappedOwned(w, w.poller.channels[slot]);
    }
    forall slot <- w.poller.kernel ensures Alive(w, w.poller.kernel[slot].chan) {
      var c := w.poller.kernel[slot].chan;
      assert Registered(w.poller, c);
      MappedOwned(w, c);
    }
  }

  /** A channel is registered from its establishment until its destruction, and leaves with it. */
  lemma MappedExactlyWhileAlive(w0: World, run: seq<Label>, c: nat)
    requires Init(w0) && Executes(w0, run) && TimelyRun(w0, run) && c < |Final(w0, run).conns|
    ensures var w := Final(w0, run);
            Mapped(w.poller, c) <==> w.conns[c].established == 1 && w.conns[c].destroyed == 0
  {
    RunKeeps(w0, run);
    InvView(Final(w0, run), c);
  }

  /**
   * While a loop dispatches its active list, every channel still on it, the one being handled
   * included, stays in channels_ and its connection stays owned.
   */
  lemma DispatchStable(w0: World, run: seq<Label>, l: nat)
    requires Init(w0) && Executes(w0, run) && TimelyRun(w0, run) && l < |Final(w0, run).loops|
    ensures var w := Final(w0, run);
            forall c <- Active(w.loops[l].phase) :: Alive(w, c) && Mapped(w.poller, c) && w.conns[c].loop == l
  {
    RunKeeps(w0, run);
    var w := Final(w0, run);
    forall c <- Active(w.loops[l].phase)
      ensures Alive(w, c) && Mapped(w.poller, c) && w.conns[c].loop == l
    {
      assert Undestroyed(w, l, c);
      UndestroyedOwned(w, c);
      InvView(w, c);
    }
  }

  /** The raw `this` of a queued task pushed in time stays valid: the destruction can only be queued behind it. */
  lemma QueuedSendAlive(w0: World, run: seq<Label>, l: nat, t: Task)
    requires Init(w0) && Executes(w0, run) && TimelyRun(w0, run) && l < |Final(w0, run).loops|
    requires t in Final(w0, run).loops[l].Queue() && t.Raw()
    ensures Alive(Final(w0, run), t.c)
  {
    RunKeeps(w0, run);
    QueuedRawAlive(Final(w0, run), l, t);
  }

  lemma QueuedRawAlive(w: World, l: nat, t: Task)
    requires Inv(w) && l < |w.loops| && t in w.loops[l].Queue() && t.Raw()
    ensures Alive(w, t.c)
  {
    hide Agreement, Views, OpenFdsDistinct, DispatchInv, NamesInv, GoneInv, Mine, LoopSound;
    assert t.c < |w.conns| && (l == 0 || l == w.conns[t.c].loop);
    InvView(w, t.c);
    MineHas(w.loops[l].Queue(), t.c);
    UndestroyedOwned(w, t.c);
  }

  // ---------------------------------------------------------------- order of a connection's life

  /** The stages of a connection and the callbacks its user saw, as counts. */
  ghost predicate LifeInOrder(k: Conn) {
    && k.established <= 1 && k.ups == k.established
    && (k.closes > 0 ==> k.established == 1)
    && k.erased <= k.closes + k.dropped && k.dropped <= 1 && (k.dropped == 1 ==> k.closes == 0)
    && k.destroyed <= k.erased && (k.destroyed > 0 ==> k.established == 1)
    && k.downs == k.closes + k.forced && k.forced <= 1 && (k.forced == 1 ==> k.dropped == 1 && k.destroyed > 0)
  }

  /**
   * In every reachable state: no close without an establishment, no erasure from connectionMap_
   * without a close (or the server's own destructor), no destruction without an erasure, and never
   * more of the later than of the earlier. Holding at each step, this is the order in time.
   */
  lemma LifeOrder(w0: World, run: seq<Label>, c: nat)
    requires Init(w0) && Executes(w0, run) && TimelyRun(w0, run) && c < |Final(w0, run).conns|
    ensures LifeInOrder(Final(w0, run).conns[c])
  {
    RunKeeps(w0, run);
    InvView(Final(w0, run), c);
  }

  /** A connection closed once and fully torn down told its user exactly once up and once down. */
  lemma ClosePathCallbacks(w0: World, run: seq<Label>, c: nat)
    requires Init(w0) && Executes(w0, run) && TimelyRun(w0, run) && c < |Final(w0, run).conns|
    ensures var k := Final(w0, run).conns[c];
            k.closes == 1 ==> k.ups == 1 && k.downs == 1 && k.erased <= 1 && k.destroyed <= 1
  {
    LifeOrder(w0, run, c);
  }

  /** What the user has been told of a connection that ~TcpServer has just destroyed, given its state before. */
  ghost predicate ToldAtEnd(k: Conn, state: State) {
    && k.ups == 1 && k.destroyed == 1 && k.closes == 0
    && (k.downs == 1 <==> state == Connected) && (k.downs == 0 <==> state == Disconnecting)
  }

  /**
   * A connection destroyed by ~TcpServer tells its user about the end only if its state was still
   * kConnected: after shutdown() there is an up without a down. Here one of an io loop, destroyed there.
   */
  lemma DestructorDownIff(w: World, l: nat, o: Outcome)
    requires Inv(w) && Enabled(w, RunTask(l, o)) && w.loops[l].batch[0].Destroy?
    requires w.conns[w.loops[l].batch[0].c].dropped == 1
    ensures var c := w.loops[l].batch[0].c;
            var r := ConnectDestroyed(TakeTask(w, l), c);
            Apply(w, RunTask(l, o)) == r && ToldAtEnd(r.conns[c], w.conns[c].state)
  {
    hide SetEvents, RemoveChannel, Name, Owned, Mine, OpenFdsDistinct, Agreement, Views, DispatchInv, NamesInv;
    hide TasksPlaced, GoneInv, LoopSound;
    HeadFacts(w, l);
    HeadCount(w, l);
  }

  /** And one of the main loop, which the destructor destroys as it drops it. */
  lemma DestructorDownAtOnceIff(w: World, c: nat)
    requires Inv(w) && Enabled(w, DropConnection(c)) && w.conns[c].loop == 0
    ensures ToldAtEnd(Apply(w, DropConnection(c)).conns[c], w.conns[c].state)
  {
    hide SetEvents, RemoveChannel, Name, Owned, Mine, OpenFdsDistinct, Agreement, DispatchInv, NamesInv, Views;
    MainEmpty(w, c);
    InvView(w, c);
  }

  lemma HeadCount(w: World, l: nat)
    requires Inv(w) && l < |w.loops| && w.loops[l].batch != [] && w.loops[l].batch[0].Destroy?
    requires w.conns[w.loops[l].batch[0].c].dropped == 1
    ensures w.conns[w.loops[l].batch[0].c].destroyed == 0
  {
    hide Agreement, OpenFdsDistinct, TasksPlaced, DispatchInv, NamesInv, GoneInv, QueueInv, StateInv;
    HeadFacts(w, l);
    var t := w.loops[l].batch[0];
    MineHas(w.loops[l].Queue(), t.c);
    assert t in multiset(ViewOf(w, t.c).io);
  }

  // ---------------------------------------------------------------- the state never goes back

  /** How far the state of `c` has come; before its creation it has not started. */
  function Rank(w: World, c: nat): nat {
    if c >= |w.conns| then 0 else
    match w.conns[c].state
    case Connecting => 0
    case Connected => 1
    case Disconnecting => 2
    case Disconnected => 3
  }

  lemma TaskMonotone(w: World, t: Task, o: Outcome, c: nat)
    requires Sound(w) && t.c < |w.conns| && c < |w.conns|
    requires t.Establish? ==> w.conns[t.c].state == Connecting
    ensures Rank(RunOne(w, t, o), c) >= Rank(w, c)
  {
    hide Sound, SetEvents, RemoveChannel, Name, Owned;
  }

  lemma CallbackMonotone(w: World, l: nat, o: Outcome, c: nat)
    requires Sound(w) && Enabled(w, RunCallback(l, o)) && c < |w.conns|
    ensures Rank(CallNext(w, l, o), c) >= Rank(w, c)
  {
    hide SetEvents, Name;
    assert LoopSound(w.loops[l], |w.conns|);
  }

  lemma DropMonotone(w: World, d: nat, c: nat)
    requires Sound(w) && d < |w.conns| && c < |w.conns|
    ensures Rank(Drop(w, d), c) >= Rank(w, c)
  {
    hide SetEvents, RemoveChannel, Name, LoopSound;
  }

  lemma AcceptMonotone(w: World, fd: nat, io: nat, c: nat)
    requires Sound(w) && io < |w.loops| && c < |w.conns|
    ensures Rank(NewConnection(w, fd, io), c) >= Rank(w, c)
  {
    hide NewConnection, SetEvents, Name, LoopSound;
    NewConnectionShape(w, fd, io);
  }

  lemma SendConns(w: World, d: nat, o: Outcome)
    requires Sound(w) && d < |w.conns|
    ensures SendInLoop(w, d, o).conns == w.conns
  {
    hide SetEvents, LoopSound;
  }

  lemma EventConns(w: World, l: nat, eof: bool)
    requires Sound(w) && Enabled(w, BeginEvent(l, eof))
    ensures HandleEvent(w, l, eof).conns == w.conns
  {
    hide Owned, Callbacks, LoopSound;
  }

  lemma OtherMonotone(w: World, a: Label, c: nat)
    requires Sound(w) && Enabled(w, a) && c < |w.conns| && !a.RunTask? && !a.SetDisconnecting?
    ensures Rank(Apply(w, a), c) >= Rank(w, c)
  {
    hide Sound, Name, Owned, Reportable, CallNext, Drop, NewConnection, SendInLoop, HandleEvent;
    match a
    case RunCallback(l, o) => CallbackMonotone(w, l, o, c);
    case DropConnection(d) => DropMonotone(w, d, c);
    case Accept(fd, io) => AcceptMonotone(w, fd, io, c);
    case LocalSend(d, o) => assert SendInLoop(w, d, o).conns == w.conns by { SendConns(w, d, o); }
    case BeginEvent(l, eof) => assert HandleEvent(w, l, eof).conns == w.conns by { EventConns(w, l, eof); }
    case _ =>
  }

  lemma EstablishesConnecting(w: World, l: nat)
    requires Inv(w) && l < |w.loops| && w.loops[l].batch != [] && w.loops[l].batch[0].Establish?
    ensures w.conns[w.loops[l].batch[0].c].state == Connecting
  {
    hide Agreement, OpenFdsDistinct, TasksPlaced, DispatchInv, NamesInv, QueueInv, CountInv, Mine;
    HeadFacts(w, l);
  }

  lemma StoppingKnown(w: World, c: nat)
    requires Inv(w) && c in w.stopping
    ensures c < |w.conns| && w.conns[c].state != Connecting
  {
    InvView(w, c);
  }

  lemma RunTaskMonotone(w: World, l: nat, o: Outcome, c: nat)
    requires Sound(w) && Enabled(w, RunTask(l, o)) && c < |w.conns|
    requires w.loops[l].batch[0].Establish? ==> w.conns[w.loops[l].batch[0].c].state == Connecting
    ensures Rank(Apply(w, RunTask(l, o)), c) >= Rank(w, c)
  {
    hide RunOne, PhaseSound;
    TaskMonotone(TakeTask(w, l), w.loops[l].batch[0], o, c);
  }

  lemma RunTaskMonotoneInv(w: World, l: nat, o: Outcome, c: nat)
    requires Sound(w) && Inv(w) && Enabled(w, RunTask(l, o)) && c < |w.conns|
    ensures Rank(Apply(w, RunTask(l, o)), c) >= Rank(w, c)
  {
    hide Inv, Sound, Apply, Rank;
    if w.loops[l].batch[0].Establish? {
      EstablishesConnecting(w, l);
    }
    RunTaskMonotone(w, l, o, c);
  }

  lemma SetDisconnectingMonotone(w: World, d: nat, local: bool, c: nat)
    requires Sound(w) && Inv(w) && Enabled(w, SetDisconnecting(d, local)) && c < |w.conns|
    ensures Rank(Apply(w, SetDisconnecting(d, local)), c) >= Rank(w, c)
            <==> !(d == c && w.conns[c].state == Disconnected)
  {
    hide Sound, Inv;
    StoppingKnown(w, d);
  }

  /** The non-atomic shutdown is the only way back: its store lands after the connection has closed. */
  lemma StateMonotoneIff(w: World, a: Label, c: nat)
    requires Sound(w) && Inv(w) && Enabled(w, a) && c < |w.conns|
    ensures Rank(Apply(w, a), c) >= Rank(w, c)
            <==> !(a.SetDisconnecting? && a.c == c && w.conns[c].state == Disconnected)
  {
    hide Inv, Sound, Apply, Rank, Enabled;
    if a.RunTask? {
      RunTaskMonotoneInv(w, a.l, a.o, c);
    } else if a.SetDisconnecting? {
      SetDisconnectingMonotone(w, a.c, a.local, c);
    } else {
      OtherMonotone(w, a, c);
    }
  }
}
