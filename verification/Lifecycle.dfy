/**
 * The life of connections across event loops: TcpServer, TcpConnection, Channel and EpollPoller
 * as one machine whose steps are the atomic actions of the loop threads and of user threads.
 * Loop 0 is the main loop. A connection is known by its creation order.
 */
module Lifecycle {
  import opened ConnState
  import opened Registry
  import opened Dispatch
  import opened Naming

  /** What a loop can have queued: sendInLoop and shutdownInLoop bind a raw `this`, the rest hold a TcpConnectionPtr. */
  datatype Task =
    | Establish(c: nat) | Remove(c: nat) | Destroy(c: nat) | Notify(c: nat) | Send(c: nat) | HalfClose(c: nat)
  {
    predicate Raw() { Send? || HalfClose? }
  }

  /**
   * How a write left the output buffer: bytes remain, or none do and a write-complete callback has
   * been queued (Told) or not (Quiet), which is also what a faulted send comes to.
   */
  datatype Outcome = Partial | Quiet | Told

  /** One element of activeChannels_ with its revents_. */
  datatype Ready = Ready(c: nat, revents: Mask)

  /** Where a loop thread stands inside EventLoop::loop. */
  datatype Phase =
    | Polling
    | Dispatching(active: seq<Ready>)
    | Handling(c: nat, todo: seq<Callback>, eof: bool, rest: seq<Ready>)
    | Running

  /** `batch` is what is left of the vector swapped out by doPendingFunctors. */
  datatype Loop = Loop(phase: Phase, batch: seq<Task>, pending: seq<Task>) {
    function Queue(): seq<Task> { batch + pending }
  }

  /** A connection with counts of what has happened to it. */
  datatype Conn = Conn(
    loop: nat, fd: nat, state: State,
    ups: nat, downs: nat,
    established: nat, closes: nat, erased: nat, destroyed: nat,
    forced: nat, dropped: nat)

  /** An fd in the epoll set of one loop. */
  datatype Slot = Slot(loop: nat, fd: nat)

  datatype World = World(
    server: string, addr: InetAddress,
    conns: seq<Conn>,
    names: map<string, nat>,
    loops: seq<Loop>,
    poller: Poller<Slot, nat>,
    raw: multiset<Task>,
    stopping: multiset<nat>,
    gone: bool)

  datatype Label =
    | Accept(fd: nat, io: nat)
    | PollReturn(l: nat, active: seq<Ready>)
    | BeginEvent(l: nat, eof: bool)
    | RunCallback(l: nat, o: Outcome)
    | EndEvent(l: nat)
    | SwapPending(l: nat)
    | RunTask(l: nat, o: Outcome)
    | EndBatch(l: nat)
    | LocalSend(c: nat, o: Outcome)
    | CheckSend(c: nat)
    | PushRaw(t: Task)
    | CheckShutdown(c: nat)
    | SetDisconnecting(c: nat, local: bool)
    | DestroyServer
    | DropConnection(c: nat)

  // ---------------------------------------------------------------- well-formedness and reading

  predicate PhaseSound(phase: Phase, n: nat) {
    match phase
    case Dispatching(active) => forall r <- active :: r.c < n
    case Handling(c, _, _, rest) => c < n && forall r <- rest :: r.c < n
    case _ => true
  }

  /** Everything a loop refers to is one of the first `n` connections. */
  predicate LoopSound(loop: Loop, n: nat) {
    && (forall t <- loop.batch :: t.c < n)
    && (forall t <- loop.pending :: t.c < n)
    && PhaseSound(loop.phase, n)
  }

  /** Indices make sense; says nothing about behaviour. */
  ghost predicate Sound(w: World) {
    && |w.loops| > 0
    && w.addr.Valid()
    && (forall c | 0 <= c < |w.conns| :: w.conns[c].loop < |w.loops|)
    && (forall c: nat :: c in w.poller.chans <==> c < |w.conns|)
    && (forall l | 0 <= l < |w.loops| :: LoopSound(w.loops[l], |w.conns|))
  }

  function Name(w: World, c: nat): string {
    ConnName(w.server, w.addr, c + 1)
  }

  /** `c` is an entry of connectionMap_. */
  predicate Listed(w: World, c: nat) {
    Name(w, c) in w.names
  }

  predicate Owns(t: Task, c: nat) {
    t.c == c && !t.Raw()
  }

  /** Some TcpConnectionPtr keeps the object alive: the map or a lambda that has not finished. */
  predicate Owned(w: World, c: nat) {
    || Listed(w, c)
    || exists l | 0 <= l < |w.loops| :: exists t <- w.loops[l].Queue() :: Owns(t, c)
  }

  /** User code may be running on the loop's thread: in a handler, in a task, or while a connection is accepted. */
  predicate InCallback(w: World, l: nat)
    requires l < |w.loops|
  {
    !w.loops[l].phase.Polling?
  }

  // ---------------------------------------------------------------- primitive effects

  function Post(w: World, l: nat, t: Task): (r: World)
    requires l < |w.loops|
    ensures Sound(w) && t.c < |w.conns| ==> Sound(r)
  {
    w.(loops := w.loops[l := w.loops[l].(pending := w.loops[l].pending + [t])])
  }

  function SetConn(w: World, c: nat, k: Conn): World
    requires c < |w.conns|
  {
    w.(conns := w.conns[c := k])
  }

  function SetPhase(w: World, l: nat, phase: Phase): (r: World)
    requires l < |w.loops|
    ensures Sound(w) && PhaseSound(phase, |w.conns|) ==> Sound(r)
  {
    w.(loops := w.loops[l := w.loops[l].(phase := phase)])
  }

  // ---------------------------------------------------------------- TcpConnection and TcpServer

  /** TcpConnection::connectEstablished */
  function ConnectEstablished(w: World, c: nat): (r: World)
    requires Sound(w) && c < |w.conns|
    ensures Sound(r)
  {
    var k := w.conns[c];
    SetConn(w, c, k.(state := Connected, ups := k.ups + 1, established := k.established + 1))
    .(poller := EnableReading(w.poller, c))
  }

  /** TcpConnection::connectDestroyed */
  function ConnectDestroyed(w: World, c: nat): (r: World)
    requires Sound(w) && c < |w.conns|
    ensures Sound(r)
  {
    var k := w.conns[c].(destroyed := w.conns[c].destroyed + 1);
    if k.state == Connected then
      SetConn(w, c, k.(state := Disconnected, downs := k.downs + 1, forced := k.forced + 1))
      .(poller := RemoveChannel(DisableAll(w.poller, c), c))
    else
      SetConn(w, c, k).(poller := RemoveChannel(w.poller, c))
  }

  /** TcpServer::removeConnectionInLoop */
  function RemoveInLoop(w: World, c: nat): (r: World)
    requires Sound(w) && c < |w.conns|
    ensures Sound(r)
  {
    var k := w.conns[c];
    Post(SetConn(w, c, k.(erased := k.erased + 1)).(names := w.names - {Name(w, c)}), k.loop, Destroy(c))
  }

  /** TcpConnection::handleClose as far as the connection itself goes */
  function Closed(w: World, c: nat): (r: World)
    requires Sound(w) && c < |w.conns|
    ensures Sound(r)
  {
    var k := w.conns[c];
    SetConn(w, c, k.(state := Disconnected, downs := k.downs + 1, closes := k.closes + 1))
    .(poller := DisableAll(w.poller, c))
  }

  /** TcpConnection::handleClose with its closeCallback_, which is TcpServer::removeConnection */
  function HandleClose(w: World, c: nat): (r: World)
    requires Sound(w) && c < |w.conns|
    ensures Sound(r)
  {
    var w1 := Closed(w, c);
    if w.conns[c].loop == 0 then RemoveInLoop(w1, c) else Post(w1, 0, Remove(c))
  }

  /** TcpConnection::handleWrite as far as interest and queued callbacks go */
  function HandleWrite(w: World, c: nat, o: Outcome): (r: World)
    requires Sound(w) && c < |w.conns|
    ensures Sound(r)
  {
    if !w.poller.chans[c].IsWriting() || o.Partial? then w else
    var w1 := w.(poller := DisableWriting(w.poller, c));
    if o.Told? then Post(w1, w.conns[c].loop, Notify(c)) else w1
  }

  /** TcpConnection::sendInLoop as far as interest and queued callbacks go; only kDisconnecting refuses. */
  function SendInLoop(w: World, c: nat, o: Outcome): (r: World)
    requires Sound(w) && c < |w.conns|
    ensures Sound(r)
  {
    if w.conns[c].state == Disconnecting then w
    else if o.Partial? then
      if w.poller.chans[c].IsWriting() then w else w.(poller := EnableWriting(w.poller, c))
    else if o.Told? then Post(w, w.conns[c].loop, Notify(c))
    else w
  }

  /** The new TcpConnection is in connectionMap_; nothing has been posted for it yet. */
  function Created(w: World, fd: nat, io: nat): (r: World)
    ensures Sound(w) && io < |w.loops| ==> Sound(r)
  {
    var c := |w.conns|;
    w.(conns := w.conns + [Conn(io, fd, Connecting, 0, 0, 0, 0, 0, 0, 0, 0)],
       names := w.names[Name(w, c) := c],
       poller := w.poller.(chans := w.poller.chans[c := Chan(Slot(io, fd), NO_EVENT, New)]))
  }

  /** TcpServer::newConnection: the new object, its entry in connectionMap_, then runInLoop. */
  function NewConnection(w: World, fd: nat, io: nat): (r: World)
    requires Sound(w) && io < |w.loops|
    ensures Sound(r)
  {
    var c := |w.conns|;
    var w1 := Created(w, fd, io);
    if io == 0 then ConnectEstablished(w1, c) else Post(w1, io, Establish(c))
  }

  function RunOne(w: World, t: Task, o: Outcome): (r: World)
    requires Sound(w) && t.c < |w.conns|
    ensures Sound(r)
  {
    match t
    case Establish(c) => ConnectEstablished(w, c)
    case Remove(c) => RemoveInLoop(w, c)
    case Destroy(c) => ConnectDestroyed(w, c)
    case Notify(_) => w
    case Send(c) => SendInLoop(w, c, o)
    case HalfClose(_) => w
  }

  // ---------------------------------------------------------------- the machine

  predicate Moves(w: World, l: nat) {
    l < |w.loops| && (l == 0 ==> !w.gone)
  }

  /** What epoll_wait may report for one entry: the kernel's pointer and asked-for or error events. */
  predicate Reportable(w: World, l: nat, r: Ready) {
    exists slot <- w.poller.kernel ::
      slot.loop == l && w.poller.kernel[slot].chan == r.c
      && r.revents <= w.poller.kernel[slot].mask + {Hup, Err}
  }

  ghost predicate Enabled(w: World, a: Label)
    requires Sound(w)
  {
    match a
    case Accept(fd, io) =>
      // accept returns an fd that is not open, and nextConnId_ has not overflowed
      && !w.gone && w.loops[0].phase.Dispatching? && io < |w.loops|
      && |w.conns| + 1 <= INT_MAX
      && forall c | 0 <= c < |w.conns| && Owned(w, c) :: w.conns[c].fd != fd
    case PollReturn(l, active) =>
      && Moves(w, l) && w.loops[l].phase.Polling?
      && (forall r <- active :: r.c < |w.conns| && Reportable(w, l, r))
      && (forall i, j | 0 <= i < j < |active| :: active[i].c != active[j].c)
    case BeginEvent(l, _) =>
      Moves(w, l) && w.loops[l].phase.Dispatching? && w.loops[l].phase.active != []
    case RunCallback(l, _) =>
      // a close calls back into the server, which must still exist
      && Moves(w, l) && w.loops[l].phase.Handling? && w.loops[l].phase.todo != []
      && (w.gone ==> !Closing(w.loops[l].phase.todo[0], w.loops[l].phase.eof))
    case EndEvent(l) =>
      Moves(w, l) && w.loops[l].phase.Handling? && w.loops[l].phase.todo == []
    case SwapPending(l) =>
      Moves(w, l) && w.loops[l].phase == Dispatching([])
    case RunTask(l, _) =>
      Moves(w, l) && w.loops[l].phase.Running? && w.loops[l].batch != []
    case EndBatch(l) =>
      Moves(w, l) && w.loops[l].phase.Running? && w.loops[l].batch == []
    case LocalSend(c, _) =>
      c < |w.conns| && Moves(w, w.conns[c].loop) && InCallback(w, w.conns[c].loop)
      && w.conns[c].state == Connected
    case CheckSend(c) => c < |w.conns| && w.conns[c].state == Connected
    case PushRaw(t) => t.Raw() && t.c < |w.conns| && t in w.raw
    case CheckShutdown(c) => c < |w.conns| && w.conns[c].state == Connected
    case SetDisconnecting(c, local) =>
      && c < |w.conns| && c in w.stopping
      && (local ==> Moves(w, w.conns[c].loop) && InCallback(w, w.conns[c].loop))
    case DestroyServer =>
      // on the main thread, after its loop, with no task left that captured the server
      !w.gone && w.loops[0].phase.Polling? && w.loops[0].Queue() == []
    case DropConnection(c) =>
      w.gone && c < |w.conns| && Listed(w, c)
  }

  /** Channel::handleEvent on the head of the active list: tie_.lock() decides whether the handler runs. */
  function HandleEvent(w: World, l: nat, eof: bool): (r: World)
    requires Sound(w) && Enabled(w, BeginEvent(l, eof))
    ensures Sound(r)
  {
    var active := w.loops[l].phase.active;
    SetPhase(w, l, if Owned(w, active[0].c)
                   then Handling(active[0].c, Callbacks(active[0].revents), eof, active[1..])
                   else Dispatching(active[1..]))
  }

  function CallNext(w: World, l: nat, o: Outcome): (r: World)
    requires Sound(w) && Enabled(w, RunCallback(l, o))
    ensures Sound(r)
  {
    var ph := w.loops[l].phase;
    var w1 := SetPhase(w, l, ph.(todo := ph.todo[1..]));
    if Closing(ph.todo[0], ph.eof) then HandleClose(w1, ph.c)
    else if ph.todo[0].WriteCallback? then HandleWrite(w1, ph.c, o)
    else w1
  }

  function TakeTask(w: World, l: nat): (r: World)
    requires Sound(w) && l < |w.loops| && w.loops[l].batch != []
    ensures Sound(r)
  {
    w.(loops := w.loops[l := w.loops[l].(batch := w.loops[l].batch[1..])])
  }

  /** The critical section of doPendingFunctors. */
  function Swap(w: World, l: nat): (r: World)
    requires Sound(w) && l < |w.loops|
    ensures Sound(r)
  {
    w.(loops := w.loops[l := Loop(Running, w.loops[l].Queue(), [])])
  }

  /** One round of the loop in ~TcpServer. */
  function Drop(w: World, c: nat): (r: World)
    requires Sound(w) && c < |w.conns|
    ensures Sound(r)
  {
    var k := w.conns[c];
    var w1 := SetConn(w, c, k.(erased := k.erased + 1, dropped := k.dropped + 1))
              .(names := w.names - {Name(w, c)});
    if k.loop == 0 then ConnectDestroyed(w1, c) else Post(w1, k.loop, Destroy(c))
  }

  function NextChannel(w: World, l: nat): (r: World)
    requires Sound(w) && l < |w.loops| && w.loops[l].phase.Handling?
    ensures Sound(r)
  {
    assert LoopSound(w.loops[l], |w.conns|);
    SetPhase(w, l, Dispatching(w.loops[l].phase.rest))
  }

  /** queueInLoop of a sendInLoop or shutdownInLoop that another thread has decided on. */
  function QueueRaw(w: World, t: Task): (r: World)
    requires Sound(w) && t.c < |w.conns|
    ensures Sound(r)
  {
    Post(w.(raw := w.raw - multiset{t}), w.conns[t.c].loop, t)
  }

  /** TcpConnection::shutdown, past its check of the state; on the loop's own thread shutdownInLoop follows at once. */
  function StoreDisconnecting(w: World, c: nat, local: bool): (r: World)
    requires Sound(w) && c < |w.conns|
    ensures Sound(r)
  {
    var w1 := w.(stopping := w.stopping - multiset{c},
                 raw := if local then w.raw else w.raw + multiset{HalfClose(c)});
    SetConn(w1, c, w.conns[c].(state := Disconnecting))
  }

  function Apply(w: World, a: Label): (r: World)
    requires Sound(w) && Enabled(w, a)
    ensures Sound(r)
  {
    match a
    case Accept(fd, io) => NewConnection(w, fd, io)
    case PollReturn(l, active) => SetPhase(w, l, Dispatching(active))
    case BeginEvent(l, eof) => HandleEvent(w, l, eof)
    case RunCallback(l, o) => CallNext(w, l, o)
    case EndEvent(l) => NextChannel(w, l)
    case SwapPending(l) => Swap(w, l)
    case RunTask(l, o) => RunOne(TakeTask(w, l), w.loops[l].batch[0], o)
    case EndBatch(l) => SetPhase(w, l, Polling)
    case LocalSend(c, o) => SendInLoop(w, c, o)
    case CheckSend(c) => w.(raw := w.raw + multiset{Send(c)})
    case PushRaw(t) => QueueRaw(w, t)
    case CheckShutdown(c) => w.(stopping := w.stopping + multiset{c})
    case SetDisconnecting(c, local) => StoreDisconnecting(w, c, local)
    case DestroyServer => w.(gone := true)
    case DropConnection(c) => Drop(w, c)
  }

  ghost predicate Init(w: World) {
    && Sound(w)
    && w.conns == [] && w.names == map[] && !w.gone
    && w.raw == multiset{} && w.stopping == multiset{}
    && (forall l | 0 <= l < |w.loops| :: w.loops[l] == Loop(Polling, [], []))
    && w.poller.channels == map[] && w.poller.kernel == map[] && w.poller.faults == 0
  }

  /** Every label of the run is enabled when its turn comes. */
  ghost predicate Executes(w: World, run: seq<Label>)
    requires Sound(w)
    decreases |run|
  {
    run == [] || (Enabled(w, run[0]) && Executes(Apply(w, run[0]), run[1..]))
  }

  ghost function Final(w: World, run: seq<Label>): (r: World)
    requires Sound(w) && Executes(w, run)
    ensures Sound(r)
    decreases |run|
  {
    if run == [] then w else Final(Apply(w, run[0]), run[1..])
  }
}
