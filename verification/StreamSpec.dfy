/**
 * The output side of one TcpConnection: direct writes, the output buffer, write interest,
 * half-close and the callbacks it queues, over every behaviour of the kernel.
 */
module StreamSpec {
  import opened ConnState
  import opened BufferSpec

  /** One write(2) call: a count, EWOULDBLOCK, EPIPE or ECONNRESET, or any other error. */
  datatype Kernel = Wrote(n: nat) | WouldBlock | Broken | OtherError

  /** What the connection has queued or asked of the socket, with the stream as it stood then. */
  datatype Note =
    | WriteComplete(onWire: seq<byte>, owed: seq<byte>)
    | HighWater(occupancy: nat)
    | HalfClose(onWire: seq<byte>, owed: seq<byte>)

  datatype Config = Config(form: Extent, mark: nat, wantsComplete: bool, wantsHighWater: bool)

  /**
   * `wire` is what the kernel took, `accepted` the concatenation of all sends neither refused nor
   * faulted, `overshoot` counts bytes taken beyond the pending ones. `checked` counts threads between
   * the test and the store of a shutdown, `handed` the shutdownInLoop tasks they have queued, `closed`
   * says that there has been a close.
   */
  datatype Stream = Stream(
    state: State, out: Image, writing: bool,
    wire: seq<byte>, accepted: seq<byte>, overshoot: nat, notes: seq<Note>,
    closed: bool, checked: nat, handed: nat)

  const INIT: Stream := Stream(Connecting, EMPTY, false, [], [], 0, [], false, 0, 0)

  function Occupancy(s: Stream): nat
    requires s.out.Valid()
  {
    s.out.ReadableBytes()
  }

  /** sendInLoop tries the socket first when nothing is waiting ahead. */
  predicate Direct(s: Stream)
    requires s.out.Valid()
  {
    !s.writing && Occupancy(s) == 0
  }

  predicate Faults(s: Stream, k: Kernel)
    requires s.out.Valid()
  {
    Direct(s) && k.Broken?
  }

  function Written(s: Stream, k: Kernel): nat
    requires s.out.Valid()
  {
    if Direct(s) && k.Wrote? then k.n else 0
  }

  function Notify(cfg: Config, s: Stream): Stream {
    if cfg.wantsComplete then s.(notes := s.notes + [WriteComplete(s.wire, s.accepted)]) else s
  }

  /** The slow path: alarm, append, and ask for writability. */
  function Enqueue(cfg: Config, s: Stream, rest: seq<byte>): Stream
    requires s.out.Valid()
  {
    var before := Occupancy(s);
    var notes := if before + |rest| > cfg.mark && before < cfg.mark && cfg.wantsHighWater
                 then s.notes + [HighWater(before + |rest|)] else s.notes;
    s.(notes := notes, out := Append(s.out, rest), writing := true)
  }

  function SendInLoop(cfg: Config, s: Stream, data: seq<byte>, k: Kernel): Stream
    requires s.out.Valid() && Written(s, k) <= |data|
  {
    if s.state == Disconnecting then s else
    var n := Written(s, k);
    if Faults(s, k) then s else
    var s1 := s.(wire := s.wire + data[..n], accepted := s.accepted + data);
    if n < |data| then Enqueue(cfg, s1, data[n..])
    else if Direct(s) && k.Wrote? then Notify(cfg, s1)
    else s1
  }

  function ShutdownInLoop(s: Stream): Stream {
    if s.writing then s else s.(notes := s.notes + [HalfClose(s.wire, s.accepted)])
  }

  /** The buffer has run empty: no more write interest, the callback, and the half-close that waited for it. */
  function Drained(cfg: Config, s: Stream): Stream {
    var s1 := Notify(cfg, s.(writing := false));
    if s.state == Disconnecting then ShutdownInLoop(s1) else s1
  }

  function HandleWrite(cfg: Config, s: Stream, k: Kernel): Stream
    requires s.out.Valid() && (s.writing && k.Wrote? ==> k.n <= |Offered(cfg.form, s.out)|)
  {
    if !s.writing || !k.Wrote? || k.n == 0 then s else
    var s1 := s.(
      wire := s.wire + Offered(cfg.form, s.out)[..k.n],
      out := Retrieve(s.out, k.n),
      overshoot := s.overshoot + if k.n > Occupancy(s) then k.n - Occupancy(s) else 0);
    if Occupancy(s1) > 0 then s1 else Drained(cfg, s1)
  }

  function Shutdown(s: Stream): Stream {
    if s.state == Connected then ShutdownInLoop(s.(state := Disconnecting)) else s
  }

  function HandleClose(s: Stream): Stream {
    s.(state := Disconnected, writing := false, closed := true)
  }

  /** The store of shutdown by another thread, which then queues shutdownInLoop. */
  function StoreElsewhere(s: Stream): Stream
    requires s.checked > 0
  {
    s.(state := Disconnecting, checked := s.checked - 1, handed := s.handed + 1)
  }

  // ---------------------------------------------------------------- runs

  /**
   * Send and CallShutdown are the public calls on the loop thread; RunQueuedSend and RunShutdown run
   * what other threads have queued, after their own test of the state and, for shutdown, their store.
   */
  datatype Label =
    | Establish | Send(data: seq<byte>, k: Kernel) | RunQueuedSend(data: seq<byte>, k: Kernel)
    | Writable(k: Kernel) | CallShutdown | Close
    | CheckShutdown | StoreShutdown | RunShutdown

  predicate Enabled(cfg: Config, s: Stream, a: Label) {
    && s.out.Valid()
    && match a
       case Establish => s.state == Connecting
       case Send(data, k) => s.state == Connected ==> Written(s, k) <= |data|
       case RunQueuedSend(data, k) => s.state != Connecting && Written(s, k) <= |data|
       case Writable(k) => s.writing && k.Wrote? ==> k.n <= |Offered(cfg.form, s.out)|
       case CallShutdown => true
       case Close => s.state != Connecting
       case CheckShutdown => s.state == Connected
       case StoreShutdown => s.checked > 0
       case RunShutdown => s.handed > 0
  }

  function Apply(cfg: Config, s: Stream, a: Label): Stream
    requires Enabled(cfg, s, a)
  {
    match a
    case Establish => s.(state := Connected)
    case Send(data, k) => if s.state == Connected then SendInLoop(cfg, s, data, k) else s
    case RunQueuedSend(data, k) => SendInLoop(cfg, s, data, k)
    case Writable(k) => HandleWrite(cfg, s, k)
    case CallShutdown => Shutdown(s)
    case Close => HandleClose(s)
    case CheckShutdown => s.(checked := s.checked + 1)
    case StoreShutdown => StoreElsewhere(s)
    case RunShutdown => ShutdownInLoop(s.(handed := s.handed - 1))
  }

  ghost predicate Executes(cfg: Config, s: Stream, run: seq<Label>)
    decreases |run|, 0
  {
    run == [] || (Executes(cfg, s, run[..|run| - 1])
                  && Enabled(cfg, Final(cfg, s, run[..|run| - 1]), run[|run| - 1]))
  }

  ghost function Final(cfg: Config, s: Stream, run: seq<Label>): Stream
    requires Executes(cfg, s, run)
    decreases |run|, 1
  {
    if run == [] then s else Apply(cfg, Final(cfg, s, run[..|run| - 1]), run[|run| - 1])
  }

  // ---------------------------------------------------------------- the invariant

  /** Bytes taken by the kernel and bytes pending make up what was accepted, up to the overshoot. */
  ghost predicate Conserved(s: Stream)
    requires s.out.Valid()
  {
    && |s.wire| + Occupancy(s) == |s.accepted| + s.overshoot
    && (s.overshoot == 0 ==> s.wire + s.out.Readable() == s.accepted)
  }

  ghost predicate NotesInv(cfg: Config, s: Stream) {
    forall n <- s.notes ::
      match n
      case WriteComplete(onWire, owed) => s.overshoot == 0 ==> onWire == owed
      case HighWater(occupancy) => occupancy > cfg.mark
      case HalfClose(_, _) => true
  }

  ghost predicate Inv(cfg: Config, s: Stream) {
    && s.out.Valid() && Conserved(s) && NotesInv(cfg, s)
    && (s.writing ==> Occupancy(s) > 0)
    && (!s.closed ==> (s.writing <==> Occupancy(s) > 0))
    && (cfg.form.Meant? ==> s.overshoot == 0)
    && (s.state == Disconnected ==> s.closed)
    && (s.state == Connecting ==> s.checked == 0)
    && (s.state == Connecting || s.state == Connected ==> !s.closed && s.handed == 0)
  }

  // ---------------------------------------------------------------- every step keeps it

  lemma ReadableSize(b: Image)
    requires b.Valid()
    ensures |b.Readable()| == b.ReadableBytes()
  {
  }

  lemma EnqueueFacts(cfg: Config, s: Stream, rest: seq<byte>)
    requires s.out.Valid() && rest != []
    ensures var r := Enqueue(cfg, s, rest);
            && r.out.Valid() && r.out.Readable() == s.out.Readable() + rest
            && Occupancy(r) == Occupancy(s) + |rest| && r.writing
            && r == s.(out := r.out, writing := true, notes := r.notes)
            && (NotesInv(cfg, s) ==> NotesInv(cfg, r))
  {
    AppendReadable(s.out, rest);
    ReadableSize(s.out);
    ReadableSize(Append(s.out, rest));
  }

  /** The bytes a direct write took follow everything pending, because nothing is. */
  lemma WrittenFacts(s: Stream, data: seq<byte>, n: nat)
    requires s.out.Valid() && Conserved(s) && n <= |data| && (n > 0 ==> Occupancy(s) == 0)
    ensures var s1 := s.(wire := s.wire + data[..n], accepted := s.accepted + data);
            && |s1.wire| + Occupancy(s1) + |data[n..]| == |s1.accepted| + s1.overshoot
            && (s1.overshoot == 0 ==> s1.wire + (s1.out.Readable() + data[n..]) == s1.accepted)
  {
    ReadableSize(s.out);
    var readable := s.out.Readable();
    if s.overshoot == 0 {
      Regroup(s.wire, readable, data, n);
    }
  }

  /** What goes out directly keeps its place: nothing was waiting ahead of it. */
  lemma Regroup(wire: seq<byte>, waiting: seq<byte>, data: seq<byte>, n: nat)
    requires n <= |data| && (n > 0 ==> waiting == [])
    ensures (wire + data[..n]) + (waiting + data[n..]) == (wire + waiting) + data
  {
    assert data == data[..n] + data[n..];
    if n == 0 {
      assert wire + data[..0] == wire && data[0..] == data;
    } else {
      assert waiting + data[n..] == data[n..] && wire + waiting == wire;
    }
  }

  lemma SlowPathKeeps(cfg: Config, s: Stream, data: seq<byte>, n: nat)
    requires Inv(cfg, s) && s.state != Connecting && s.state != Disconnecting
    requires n < |data| && (n > 0 ==> Occupancy(s) == 0)
    ensures Inv(cfg, Enqueue(cfg, s.(wire := s.wire + data[..n], accepted := s.accepted + data), data[n..]))
  {
    hide Enqueue;
    WrittenFacts(s, data, n);
    EnqueueFacts(cfg, s.(wire := s.wire + data[..n], accepted := s.accepted + data), data[n..]);
  }

  lemma FastPathKeeps(cfg: Config, s: Stream, data: seq<byte>, complete: bool)
    requires Inv(cfg, s) && s.state != Connecting && s.state != Disconnecting
    requires (complete || data != []) ==> Occupancy(s) == 0
    ensures var s1 := s.(wire := s.wire + data, accepted := s.accepted + data);
            Inv(cfg, if complete then Notify(cfg, s1) else s1)
  {
    var s1 := s.(wire := s.wire + data, accepted := s.accepted + data);
    WrittenFacts(s, data, |data|);
    assert data[..|data|] == data && s.out.Readable() + data[|data|..] == s.out.Readable();
    ReadableSize(s.out);
  }

  lemma SendInLoopKeeps(cfg: Config, s: Stream, data: seq<byte>, k: Kernel)
    requires Inv(cfg, s) && s.state != Connecting && Written(s, k) <= |data|
    ensures Inv(cfg, SendInLoop(cfg, s, data, k))
  {
    hide Enqueue, NotesInv, Conserved, Notify;
    if s.state != Disconnecting && !Faults(s, k) {
      var n := Written(s, k);
      if n < |data| {
        SlowPathKeeps(cfg, s, data, n);
      } else {
        assert data[..n] == data;
        assert n == 0 ==> s.wire + data == s.wire && s.accepted + data == s.accepted;
        FastPathKeeps(cfg, s, data, Direct(s) && k.Wrote?);
      }
    }
  }

  lemma DrainFacts(cfg: Config, s: Stream, n: nat)
    requires s.out.Valid() && Conserved(s) && 0 < n <= |Offered(cfg.form, s.out)|
    requires cfg.form.Meant? ==> s.overshoot == 0
    ensures var r := s.(
              wire := s.wire + Offered(cfg.form, s.out)[..n], out := Retrieve(s.out, n),
              overshoot := s.overshoot + if n > Occupancy(s) then n - Occupancy(s) else 0);
            && r.out.Valid() && Conserved(r)
            && Occupancy(r) == (if n < Occupancy(s) then Occupancy(s) - n else 0)
            && (cfg.form.Meant? ==> r.overshoot == 0)
  {
    var readable := s.out.Readable();
    ReadableSize(s.out);
    if n <= |readable| {
      assert Offered(cfg.form, s.out)[..n] == readable[..n];
      assert Retrieve(s.out, n).Readable() == readable[n..];
      assert readable == readable[..n] + readable[n..];
    }
  }

  lemma HandleWriteKeeps(cfg: Config, s: Stream, k: Kernel)
    requires Inv(cfg, s) && Enabled(cfg, s, Writable(k))
    ensures Inv(cfg, HandleWrite(cfg, s, k))
  {
    hide Offered, Retrieve;
    if s.writing && k.Wrote? && k.n > 0 {
      DrainFacts(cfg, s, k.n);
      var s1 := s.(
        wire := s.wire + Offered(cfg.form, s.out)[..k.n],
        out := Retrieve(s.out, k.n),
        overshoot := s.overshoot + if k.n > Occupancy(s) then k.n - Occupancy(s) else 0);
      if Occupancy(s1) == 0 {
        ReadableSize(s1.out);
      }
    }
  }

  lemma StepKeeps(cfg: Config, s: Stream, a: Label)
    requires Inv(cfg, s) && Enabled(cfg, s, a)
    ensures Inv(cfg, Apply(cfg, s, a))
  {
    hide SendInLoop, HandleWrite;
    match a
    case Send(data, k) => if s.state == Connected { SendInLoopKeeps(cfg, s, data, k); }
    case RunQueuedSend(data, k) => SendInLoopKeeps(cfg, s, data, k);
    case Writable(k) => HandleWriteKeeps(cfg, s, k);
    case _ =>
  }

  lemma {:induction false} RunKeepsFrom(cfg: Config, s: Stream, run: seq<Label>)
    requires Inv(cfg, s) && Executes(cfg, s, run)
    ensures Inv(cfg, Final(cfg, s, run))
    decreases |run|
  {
    if run != [] {
      RunKeepsFrom(cfg, s, run[..|run| - 1]);
      StepKeeps(cfg, Final(cfg, s, run[..|run| - 1]), run[|run| - 1]);
    }
  }

  lemma RunKeeps(cfg: Config, run: seq<Label>)
    requires Executes(cfg, INIT, run)
    ensures Inv(cfg, Final(cfg, INIT, run))
  {
    RunKeepsFrom(cfg, INIT, run);
  }
}
