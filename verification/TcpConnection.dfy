/** The TcpConnection object, proved against StreamSpec. */
module TcpConnections {
  import opened ConnState
  import opened BufferSpec
  import opened Buffers
  import opened StreamSpec
  import opened StreamShut

  /** A user callback put into the loop's queue. */
  datatype Queued = QueuedWriteComplete | QueuedHighWater(occupancy: nat)

  function QueuedOf(notes: seq<Note>): seq<Queued> {
    if notes == [] then [] else
    QueuedOf(notes[..|notes| - 1]) +
    match notes[|notes| - 1]
    case WriteComplete(_, _) => [QueuedWriteComplete]
    case HighWater(occupancy) => [QueuedHighWater(occupancy)]
    case HalfClose(_, _) => []
  }

  lemma QueuedSnoc(notes: seq<Note>, n: Note)
    ensures QueuedOf(notes + [n]) == QueuedOf(notes) +
              match n
              case WriteComplete(_, _) => [QueuedWriteComplete]
              case HighWater(occupancy) => [QueuedHighWater(occupancy)]
              case HalfClose(_, _) => []
    ensures HalfCloses(notes + [n]) == HalfCloses(notes) + if n.HalfClose? then 1 else 0
  {
    assert (notes + [n])[..|notes|] == notes;
  }

  class TcpConnection {
    const cfg: Config
    var state: State
    const inputBuffer: Buffer
    const outputBuffer: Buffer
    /** EPOLLIN and EPOLLPRI, and EPOLLOUT, in the channel's interest */
    var reading: bool
    var writing: bool
    /** the channel is tied to this object */
    var tied: bool
    /** the state the connection callback found at each of its calls, and calls of the close callback */
    var told: seq<State>
    var closeCalls: nat
    /** what other threads have handed to the loop: the data of sends, and shutdowns */
    var handedSends: seq<seq<byte>>
    var handedShutdowns: nat
    /** callbacks handed to queueInLoop so far */
    var queued: seq<Queued>
    /** calls of shutdownWrite so far */
    var writeShutdowns: nat
    ghost var wire: seq<byte>
    ghost var accepted: seq<byte>
    ghost var overshoot: nat
    ghost var notes: seq<Note>
    ghost var closed: bool

    ghost predicate Valid()
      reads this, inputBuffer, inputBuffer.storage, outputBuffer, outputBuffer.storage
    {
      && inputBuffer != outputBuffer && inputBuffer.storage != outputBuffer.storage
      && inputBuffer.Valid() && outputBuffer.Valid()
      && queued == QueuedOf(notes) && writeShutdowns == HalfCloses(notes)
    }

    /** The connection's output side as a value. */
    ghost function View(): (s: Stream)
      reads this, outputBuffer, outputBuffer.storage
    {
      Stream(state, outputBuffer.View(), writing, wire, accepted, overshoot, notes, closed, 0, handedShutdowns)
    }

    constructor (cfg: Config)
      ensures Valid() && View() == INIT && this.cfg == cfg && inputBuffer.View() == EMPTY
      ensures !reading && !tied && told == [] && closeCalls == 0 && handedSends == [] && handedShutdowns == 0
      ensures fresh(inputBuffer) && fresh(outputBuffer) && fresh(inputBuffer.storage) && fresh(outputBuffer.storage)
    {
      this.cfg := cfg;
      var inb := new Buffer();
      var outb := new Buffer();
      inputBuffer, outputBuffer := inb, outb;
      state, reading, writing, tied, queued, writeShutdowns := Connecting, false, false, false, [], 0;
      told, closeCalls, handedSends, handedShutdowns := [], 0, [], 0;
      wire, accepted, overshoot, notes, closed := [], [], 0, [], false;
    }

    method ConnectEstablished()
      requires Valid() && state == Connecting
      modifies this`state, this`tied, this`reading, this`told
      ensures Valid() && View() == Apply(cfg, old(View()), Establish)
      ensures tied && reading && told == old(told) + [Connected]
    {
      state := Connected;
      tied := true;
      reading := true;
      told := told + [state];
    }

    method QueueWriteComplete()
      requires Valid()
      modifies this`queued, this`notes
      ensures Valid() && View() == Notify(cfg, old(View()))
      ensures queued == old(queued) + if cfg.wantsComplete then [QueuedWriteComplete] else []
    {
      if cfg.wantsComplete {
        QueuedSnoc(notes, WriteComplete(wire, accepted));
        queued := queued + [QueuedWriteComplete];
        notes := notes + [WriteComplete(wire, accepted)];
      }
    }

    /** `k` is the outcome of the write(2) call, if one is made. */
    method SendInLoop(data: seq<byte>, k: Kernel)
      requires Valid() && Written(View(), k) <= |data|
      modifies this`wire, this`accepted, this`queued, this`notes, this`writing, outputBuffer, outputBuffer.storage
      ensures Valid() && View() == StreamSpec.SendInLoop(cfg, old(View()), data, k)
      ensures outputBuffer.storage == old(outputBuffer.storage) || fresh(outputBuffer.storage)
    {
      var nwrote, remaining, faultError := 0, |data|, false;
      if state == Disconnecting {
        return;
      }
      ghost var refused := Faults(View(), k);
      var direct := !writing && outputBuffer.ReadableBytes() == 0;
      if direct {
        match k
        case Wrote(n) =>
          nwrote := n;
          remaining := |data| - n;
        case Broken => faultError := true;
        case _ =>
      }
      if !refused {
        wire := wire + data[..nwrote];
        accepted := accepted + data;
      }
      if direct && k.Wrote? && remaining == 0 {
        QueueWriteComplete();
      }
      if !faultError && remaining > 0 {
        EnqueueRest(data[nwrote..]);
      }
    }

    /** The end of sendInLoop: alarm, append, and ask for writability. */
    method EnqueueRest(rest: seq<byte>)
      requires Valid()
      modifies this`queued, this`notes, this`writing, outputBuffer, outputBuffer.storage
      ensures Valid() && View() == Enqueue(cfg, old(View()), rest)
      ensures var before := old(outputBuffer.ReadableBytes());
              queued == old(queued) + if before < cfg.mark && before + |rest| > cfg.mark && cfg.wantsHighWater
                                      then [QueuedHighWater(before + |rest|)] else []
      ensures outputBuffer.storage == old(outputBuffer.storage) || fresh(outputBuffer.storage)
    {
      hide BufferSpec.Append, QueuedOf, HalfCloses;
      var oldLen := outputBuffer.ReadableBytes();
      if oldLen + |rest| > cfg.mark && oldLen < cfg.mark && cfg.wantsHighWater {
        QueuedSnoc(notes, HighWater(oldLen + |rest|));
        queued := queued + [QueuedHighWater(oldLen + |rest|)];
        notes := notes + [HighWater(oldLen + |rest|)];
      }
      outputBuffer.Append(rest);
      if !writing {
        writing := true;
      }
    }

    /** Off the loop's thread the data is handed over, and sendInLoop runs when the loop gets to it. */
    method Send(data: seq<byte>, k: Kernel, inLoopThread: bool)
      requires Valid() && (inLoopThread ==> Enabled(cfg, View(), Label.Send(data, k)))
      modifies this`wire, this`accepted, this`queued, this`notes, this`writing, this`handedSends
      modifies outputBuffer, outputBuffer.storage
      ensures Valid() && (outputBuffer.storage == old(outputBuffer.storage) || fresh(outputBuffer.storage))
      ensures inLoopThread ==> View() == Apply(cfg, old(View()), Label.Send(data, k)) && handedSends == old(handedSends)
      ensures !inLoopThread ==> View() == old(View())
      ensures !inLoopThread ==> handedSends == old(handedSends) + if old(state) == Connected then [data] else []
    {
      if state == Connected {
        if inLoopThread {
          SendInLoop(data, k);
        } else {
          handedSends := handedSends + [data];
        }
      }
    }

    /** The loop runs the oldest send handed to it, whatever the state is by now. */
    method RunHandedSend(k: Kernel)
      requires Valid() && handedSends != [] && Enabled(cfg, View(), RunQueuedSend(handedSends[0], k))
      modifies this`wire, this`accepted, this`queued, this`notes, this`writing, this`handedSends
      modifies outputBuffer, outputBuffer.storage
      ensures Valid() && (outputBuffer.storage == old(outputBuffer.storage) || fresh(outputBuffer.storage))
      ensures handedSends == old(handedSends)[1..]
      ensures View() == Apply(cfg, old(View()), RunQueuedSend(old(handedSends)[0], k))
    {
      var data := handedSends[0];
      handedSends := handedSends[1..];
      SendInLoop(data, k);
    }

    method ShutdownInLoop()
      requires Valid()
      modifies this`writeShutdowns, this`notes
      ensures Valid() && View() == StreamSpec.ShutdownInLoop(old(View()))
      ensures writeShutdowns == old(writeShutdowns) + if writing then 0 else 1
    {
      if !writing {
        QueuedSnoc(notes, HalfClose(wire, accepted));
        writeShutdowns := writeShutdowns + 1;
        notes := notes + [HalfClose(wire, accepted)];
      }
    }

    /** Off the loop's thread the state changes at once and shutdownInLoop is handed over. */
    method Shutdown(inLoopThread: bool)
      requires Valid()
      modifies this`state, this`writeShutdowns, this`notes, this`handedShutdowns
      ensures Valid()
      ensures inLoopThread ==>
                View() == Apply(cfg, old(View()), CallShutdown) && handedShutdowns == old(handedShutdowns)
      ensures !inLoopThread && old(state) != Connected ==>
                View() == old(View()) && handedShutdowns == old(handedShutdowns)
      ensures !inLoopThread && old(state) == Connected ==>
                && Enabled(cfg, old(View()), CheckShutdown)
                && View() == StoreElsewhere(Apply(cfg, old(View()), CheckShutdown))
    {
      if state == Connected {
        state := Disconnecting;
        if inLoopThread {
          ShutdownInLoop();
        } else {
          handedShutdowns := handedShutdowns + 1;
        }
      }
    }

    /** The loop runs a shutdownInLoop handed to it. */
    method RunHandedShutdown()
      requires Valid() && handedShutdowns > 0
      modifies this`handedShutdowns, this`writeShutdowns, this`notes
      ensures Valid() && Enabled(cfg, old(View()), RunShutdown) && View() == Apply(cfg, old(View()), RunShutdown)
    {
      handedShutdowns := handedShutdowns - 1;
      ShutdownInLoop();
    }

    method HandleWrite(k: Kernel)
      requires Valid() && Enabled(cfg, View(), Writable(k))
      modifies this`writing, this`queued, this`notes, this`writeShutdowns, this`wire, this`overshoot
      modifies outputBuffer`readerIndex, outputBuffer`writeIndex
      ensures Valid() && View() == Apply(cfg, old(View()), Writable(k))
    {
      hide BufferSpec.Retrieve, Offered, QueuedOf, HalfCloses;
      if writing {
        var n, errno, sent := outputBuffer.WriteFd(cfg.form, if k.Wrote? then Done(k.n) else Failed(0));
        if n > 0 {
          overshoot := overshoot + if n > outputBuffer.ReadableBytes() then n - outputBuffer.ReadableBytes() else 0;
          wire := wire + sent;
          outputBuffer.Retrieve(n);
          if outputBuffer.ReadableBytes() == 0 {
            Drained();
          }
        }
      }
    }

    /** The end of handleWrite when the buffer has run empty. */
    method Drained()
      requires Valid()
      modifies this`writing, this`queued, this`notes, this`writeShutdowns
      ensures Valid() && View() == StreamSpec.Drained(cfg, old(View()))
      ensures !writing && queued == old(queued) + if cfg.wantsComplete then [QueuedWriteComplete] else []
      ensures writeShutdowns == old(writeShutdowns) + if state == Disconnecting then 1 else 0
    {
      writing := false;
      QueueWriteComplete();
      if state == Disconnecting {
        ShutdownInLoop();
      }
    }

    /** The connection callback finds kDisconnected, then the close callback is made. */
    method HandleClose()
      requires Valid()
      modifies this`state, this`reading, this`writing, this`told, this`closeCalls, this`closed
      ensures Valid() && View() == StreamSpec.HandleClose(old(View()))
      ensures !reading && told == old(told) + [Disconnected] && closeCalls == old(closeCalls) + 1
    {
      state := Disconnected;
      reading, writing := false, false;
      told := told + [state];
      closeCalls := closeCalls + 1;
      closed := true;
    }

    /** Returns whether the message callback is due; a read of 0 closes, an error only logs. */
    method HandleRead(got: Outcome<seq<byte>>) returns (message: bool)
      requires Valid() && (got.Done? ==> |got.value| <= ReadCapacity(inputBuffer.View()))
      modifies this`state, this`reading, this`writing, this`told, this`closeCalls, this`closed
      modifies inputBuffer, inputBuffer.storage
      ensures Valid() && (inputBuffer.storage == old(inputBuffer.storage) || fresh(inputBuffer.storage))
      ensures message <==> got.Done? && got.value != []
      ensures message ==> inputBuffer.View() == ReadFd(old(inputBuffer.View()), got.value) && View() == old(View())
      ensures got == Done([]) ==> View() == StreamSpec.HandleClose(old(View())) && told == old(told) + [Disconnected]
      ensures got != Done([]) ==> told == old(told) && View() == old(View())
      ensures closeCalls == old(closeCalls) + if got == Done([]) then 1 else 0
      ensures reading == (old(reading) && got != Done([]))
      ensures inputBuffer.View().Readable()
              == old(inputBuffer.View().Readable()) + if got.Done? then got.value else []
      ensures got.Failed? ==> inputBuffer.View() == old(inputBuffer.View())
    {
      if got.Done? {
        PerformRefines(inputBuffer.View(), DoRead(got.value));
      }
      var n, errno := inputBuffer.ReadFd(got);
      message := n > 0;
      if n == 0 {
        HandleClose();
      }
    }
  }
}
