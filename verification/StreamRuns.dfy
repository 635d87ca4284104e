/** What holds of the output stream in every run. */
module StreamRuns {
  import opened ConnState
  import opened BufferSpec
  import opened StreamSpec

  lemma Prefixes(cfg: Config, s: Stream, run: seq<Label>, i: nat)
    requires Executes(cfg, s, run) && i <= |run|
    ensures Executes(cfg, s, run[..i])
    ensures i < |run| ==> Enabled(cfg, Final(cfg, s, run[..i]), run[i])
                          && Executes(cfg, s, run[..i + 1])
                          && Final(cfg, s, run[..i + 1]) == Apply(cfg, Final(cfg, s, run[..i]), run[i])
    decreases |run|
  {
    if i == |run| {
      assert run[..i] == run;
    } else if i == |run| - 1 {
      assert run[..i + 1] == run;
    } else {
      var front := run[..|run| - 1];
      Prefixes(cfg, s, front, i);
      assert front[..i] == run[..i] && front[..i + 1] == run[..i + 1];
    }
  }

  /** The stream before step `i` of the run. */
  ghost function Before(cfg: Config, run: seq<Label>, i: nat): Stream
    requires Executes(cfg, INIT, run) && i <= |run|
  {
    Prefixes(cfg, INIT, run, i);
    Final(cfg, INIT, run[..i])
  }

  /** A run and its front agree on all states but the last. */
  lemma BeforeFront(cfg: Config, run: seq<Label>)
    requires Executes(cfg, INIT, run) && run != []
    ensures var front := run[..|run| - 1];
            && Executes(cfg, INIT, front)
            && (forall i | 0 <= i <= |front| :: Before(cfg, run, i) == Before(cfg, front, i))
            && Before(cfg, run, |run| - 1) == Final(cfg, INIT, front)
            && Before(cfg, run, |run|) == Final(cfg, INIT, run)
            && Enabled(cfg, Final(cfg, INIT, front), run[|run| - 1])
            && Final(cfg, INIT, run) == Apply(cfg, Final(cfg, INIT, front), run[|run| - 1])
  {
    var front := run[..|run| - 1];
    assert run[..|run|] == run;
    forall i | 0 <= i <= |front| ensures Before(cfg, run, i) == Before(cfg, front, i) {
      assert front[..i] == run[..i];
    }
  }

  // ---------------------------------------------------------------- conservation

  /** With the length writeFd means, the wire followed by the buffer is everything accepted, in order. */
  lemma StreamConserved(cfg: Config, run: seq<Label>)
    requires cfg.form.Meant? && Executes(cfg, INIT, run)
    ensures var s := Final(cfg, INIT, run);
            s.out.Valid() && s.wire + s.out.Readable() == s.accepted
  {
    RunKeeps(cfg, run);
  }

  /** The kernel takes more than is pending, so bytes nobody sent follow. */
  predicate Overshoots(s: Stream, a: Label) {
    s.out.Valid() && a.Writable? && s.writing && a.k.Wrote? && a.k.n > Occupancy(s)
  }

  lemma {:induction false} OvershootCounts(cfg: Config, run: seq<Label>)
    requires Executes(cfg, INIT, run)
    ensures Final(cfg, INIT, run).overshoot == 0
            <==> forall i | 0 <= i < |run| :: !Overshoots(Before(cfg, run, i), run[i])
    decreases |run|
  {
    hide Overshoots, Inv, Apply, Enabled;
    if run != [] {
      var front := run[..|run| - 1];
      OvershootCounts(cfg, front);
      BeforeFront(cfg, run);
      RunKeeps(cfg, front);
      OvershootStep(cfg, Final(cfg, INIT, front), run[|run| - 1]);
    }
  }

  lemma OvershootStep(cfg: Config, s: Stream, a: Label)
    requires Inv(cfg, s) && Enabled(cfg, s, a)
    ensures Apply(cfg, s, a).overshoot == 0 <==> s.overshoot == 0 && !Overshoots(s, a)
  {
  }

  /**
   * As written or as meant, the stream is conserved in exactly the runs in which no write to a
   * waiting connection took more than was pending.
   */
  lemma StreamConservedIff(cfg: Config, run: seq<Label>)
    requires Executes(cfg, INIT, run)
    ensures var s := Final(cfg, INIT, run);
            s.out.Valid() &&
            (s.wire + s.out.Readable() == s.accepted
             <==> forall i | 0 <= i < |run| :: !Overshoots(Before(cfg, run, i), run[i]))
  {
    RunKeeps(cfg, run);
    OvershootCounts(cfg, run);
    var s := Final(cfg, INIT, run);
    assert |s.wire + s.out.Readable()| == |s.wire| + Occupancy(s);
  }

  /**
   * As written, whether a willing kernel can be made to overshoot or to move at all depends only on
   * the free tail of the buffer: beyond the pending bytes it overshoots, at zero it stalls.
   */
  lemma AsWrittenWriteIff(cfg: Config, s: Stream)
    requires cfg.form.AsWritten? && Inv(cfg, s) && s.writing
    ensures (exists n: nat :: Enabled(cfg, s, Writable(Wrote(n))) && Overshoots(s, Writable(Wrote(n))))
            <==> s.out.WritableBytes() > Occupancy(s)
    ensures (exists n: nat :: n > 0 && Enabled(cfg, s, Writable(Wrote(n)))) <==> s.out.WritableBytes() > 0
  {
    var most := s.out.WritableBytes();
    assert |Offered(AsWritten, s.out)| == most;
    assert Enabled(cfg, s, Writable(Wrote(most)));
    assert most > Occupancy(s) ==> Overshoots(s, Writable(Wrote(most)));
  }

  /** With the buffer exactly full, as written, no number of writable events ever sends another byte. */
  lemma {:induction false} FullBufferStalls(cfg: Config, s: Stream, run: seq<Label>)
    requires cfg.form.AsWritten? && Inv(cfg, s) && s.writing && s.out.WritableBytes() == 0
    requires Executes(cfg, s, run) && forall a <- run :: a.Writable?
    ensures Final(cfg, s, run) == s
    decreases |run|
  {
    if run != [] {
      FullBufferStalls(cfg, s, run[..|run| - 1]);
      assert run[|run| - 1] in run;
    }
  }

  lemma Snoc(cfg: Config, s: Stream, run: seq<Label>, a: Label)
    requires Executes(cfg, s, run) && Enabled(cfg, Final(cfg, s, run), a)
    ensures Executes(cfg, s, run + [a]) && Final(cfg, s, run + [a]) == Apply(cfg, Final(cfg, s, run), a)
  {
    assert (run + [a])[..|run|] == run;
  }

  /** The run in which a fresh connection sends `data` and the kernel has no room. */
  function Blocked(data: seq<byte>): seq<Label> {
    [] + [Establish] + [Send(data, WouldBlock)]
  }

  lemma BlockedSend(cfg: Config, data: seq<byte>)
    requires data != []
    ensures var s1 := INIT.(state := Connected);
            && Enabled(cfg, s1, Send(data, WouldBlock))
            && Apply(cfg, s1, Send(data, WouldBlock))
               == s1.(accepted := data, out := Append(EMPTY, data), writing := true,
                      notes := Apply(cfg, s1, Send(data, WouldBlock)).notes)
  {
    hide Append;
    assert data[..0] == [] && data[0..] == data;
    assert INIT.wire + data[..0] == INIT.wire && INIT.accepted + data == data;
  }

  lemma BlockedRuns(cfg: Config, data: seq<byte>)
    requires data != []
    ensures Executes(cfg, INIT, Blocked(data))
    ensures var s := Final(cfg, INIT, Blocked(data));
            s == INIT.(state := Connected, accepted := data, out := Append(EMPTY, data), writing := true,
                       notes := s.notes)
  {
    hide Append, SendInLoop, Enqueue;
    Snoc(cfg, INIT, [], Establish);
    BlockedSend(cfg, data);
    Snoc(cfg, INIT, [] + [Establish], Send(data, WouldBlock));
  }

  /** One byte pending, and as written the kernel may take two: the peer gets a byte nobody sent. */
  lemma AsWrittenOvershoots(cfg: Config, x: byte)
    requires cfg.form.AsWritten?
    ensures var run := Blocked([x]) + [Writable(Wrote(2))];
            && Executes(cfg, INIT, run) && Final(cfg, INIT, run).accepted == [x]
            && |Final(cfg, INIT, run).wire| == 2 && Overshoots(Before(cfg, run, 2), run[2])
  {
    BlockedRuns(cfg, [x]);
    AppendReadable(EMPTY, [x]);
    ReadableSize(Append(EMPTY, [x]));
    Snoc(cfg, INIT, Blocked([x]), Writable(Wrote(2)));
    assert (Blocked([x]) + [Writable(Wrote(2))])[..2] == Blocked([x]);
  }

  /** The stall is reachable: 1024 bytes fill the buffer to the brim. */
  lemma AsWrittenStallReachable(cfg: Config)
    requires cfg.form.AsWritten?
    ensures Executes(cfg, INIT, Blocked(Zeros(1024)))
    ensures var s := Final(cfg, INIT, Blocked(Zeros(1024)));
            Inv(cfg, s) && s.writing && s.out.WritableBytes() == 0 && Occupancy(s) == 1024
  {
    BlockedRuns(cfg, Zeros(1024));
    RunKeeps(cfg, Blocked(Zeros(1024)));
  }

  // ---------------------------------------------------------------- write interest and callbacks

  /** Interest in writability goes with pending bytes, as long as the connection is not disconnected. */
  predicate Tracks(s: Stream) {
    s.out.Valid() && (s.state != Disconnected ==> (s.writing <==> Occupancy(s) > 0))
  }

  /** A late store of shutdown takes a closed connection with bytes left over back to kDisconnecting. */
  predicate Strands(s: Stream, a: Label) {
    a.StoreShutdown? && s.state == Disconnected && s.out.Valid() && !s.writing && Occupancy(s) > 0
  }

  lemma TracksStep(cfg: Config, s: Stream, a: Label)
    requires Inv(cfg, s) && Tracks(s) && Enabled(cfg, s, a)
    ensures Tracks(Apply(cfg, s, a)) <==> !Strands(s, a)
  {
    StepKeeps(cfg, s, a);
  }

  /** Interest tracks pending bytes at every moment of exactly the runs without such a store. */
  lemma {:induction false} InterestTracksIff(cfg: Config, run: seq<Label>)
    requires Executes(cfg, INIT, run)
    ensures (forall i | 0 <= i <= |run| :: Tracks(Before(cfg, run, i)))
            <==> forall i | 0 <= i < |run| :: !Strands(Before(cfg, run, i), run[i])
    decreases |run|
  {
    hide Tracks, Strands, Before, Executes, Final, Inv;
    if run == [] {
      InitTracks(cfg);
    } else {
      var front := run[..|run| - 1];
      BeforeFront(cfg, run);
      InterestTracksIff(cfg, front);
      RunKeeps(cfg, front);
      var s := Final(cfg, INIT, front);
      assert s == Before(cfg, front, |front|);
      if Tracks(s) {
        TracksStep(cfg, s, run[|run| - 1]);
      }
    }
  }

  lemma InitTracks(cfg: Config)
    ensures Executes(cfg, INIT, []) && Tracks(Before(cfg, [], 0))
  {
  }

  lemma {:induction false} ClosedIff(cfg: Config, run: seq<Label>)
    requires Executes(cfg, INIT, run)
    ensures Final(cfg, INIT, run).closed <==> Close in run
    decreases |run|
  {
    hide SendInLoop, HandleWrite;
    if run != [] {
      ClosedIff(cfg, run[..|run| - 1]);
      assert run == run[..|run| - 1] + [run[|run| - 1]];
      ClosedStep(cfg, Final(cfg, INIT, run[..|run| - 1]), run[|run| - 1]);
    }
  }

  lemma ClosedStep(cfg: Config, s: Stream, a: Label)
    requires Enabled(cfg, s, a)
    ensures Apply(cfg, s, a).closed <==> s.closed || a.Close?
  {
  }

  /** Until a close, the channel asks for writability exactly while bytes wait, and after it never for nothing. */
  lemma InterestTracksPending(cfg: Config, run: seq<Label>)
    requires Executes(cfg, INIT, run)
    ensures var s := Final(cfg, INIT, run);
            && s.out.Valid()
            && (Close !in run ==> (s.writing <==> s.out.Readable() != []))
            && (s.writing ==> s.out.Readable() != [])
  {
    RunKeeps(cfg, run);
    ClosedIff(cfg, run);
    ReadableSize(Final(cfg, INIT, run).out);
  }

  /** Every queued write-complete callback came with all accepted bytes on the wire, every alarm above the mark. */
  lemma CallbacksWhenDrained(cfg: Config, run: seq<Label>)
    requires cfg.form.Meant? && Executes(cfg, INIT, run)
    ensures forall n <- Final(cfg, INIT, run).notes ::
              match n
              case WriteComplete(onWire, owed) => onWire == owed
              case HighWater(occupancy) => occupancy > cfg.mark
              case HalfClose(_, _) => true
  {
    RunKeeps(cfg, run);
  }

  /** The step gets as far as sendInLoop and is not turned away there. */
  predicate Sends(s: Stream, a: Label) {
    || (a.RunQueuedSend? && s.state != Disconnecting)
    || (a.Send? && s.state == Connected)
  }

  /**
   * A step queues a write-complete callback, if one is set, exactly when it is a write that leaves
   * nothing pending: a whole message straight to the socket, or the last of the buffer.
   */
  lemma WriteCompleteIff(cfg: Config, s: Stream, a: Label)
    requires Inv(cfg, s) && Enabled(cfg, s, a) && cfg.wantsComplete
    ensures var r := Apply(cfg, s, a);
            (exists i | |s.notes| <= i < |r.notes| :: r.notes[i].WriteComplete?)
            <==> (|| (Sends(s, a) && Direct(s) && a.k == Wrote(|a.data|))
                  || (a.Writable? && s.writing && a.k.Wrote? && a.k.n >= Occupancy(s)))
  {
    var r := Apply(cfg, s, a);
    if a.Writable? && s.writing && a.k.Wrote? && a.k.n >= Occupancy(s) {
      assert r.notes[|s.notes|].WriteComplete?;
    }
    if Sends(s, a) && Direct(s) && a.k == Wrote(|a.data|) {
      assert r.notes[|s.notes|].WriteComplete?;
    }
  }

  // ---------------------------------------------------------------- after shutdown

  /** sendInLoop turns away kDisconnecting only: a send queued by another thread still gets in after a close. */
  predicate LateSend(s: Stream, a: Label) {
    s.out.Valid() && a.RunQueuedSend? && s.state == Disconnected && a.data != [] && !Faults(s, a.k)
  }

  lemma ClosingStep(cfg: Config, s: Stream, a: Label)
    requires Inv(cfg, s) && Enabled(cfg, s, a) && (s.state == Disconnecting || s.state == Disconnected)
    ensures var r := Apply(cfg, s, a);
            && (r.state == Disconnecting || r.state == Disconnected)
            && |r.accepted| >= |s.accepted|
            && (|r.accepted| == |s.accepted| <==> !LateSend(s, a))
            && (|r.accepted| == |s.accepted| ==> r.accepted == s.accepted)
  {
  }

  ghost predicate NoLateSend(cfg: Config, s: Stream, run: seq<Label>)
    requires Executes(cfg, s, run)
    decreases |run|
  {
    run == [] || (NoLateSend(cfg, s, run[..|run| - 1])
                  && !LateSend(Final(cfg, s, run[..|run| - 1]), run[|run| - 1]))
  }

  lemma {:induction false} ClosingFrom(cfg: Config, s: Stream, run: seq<Label>)
    requires Inv(cfg, s) && s.state == Disconnecting && Executes(cfg, s, run)
    ensures var r := Final(cfg, s, run);
            && (r.state == Disconnecting || r.state == Disconnected)
            && |r.accepted| >= |s.accepted|
            && (|r.accepted| == |s.accepted| <==> NoLateSend(cfg, s, run))
            && (|r.accepted| == |s.accepted| ==> r.accepted == s.accepted)
    decreases |run|
  {
    if run != [] {
      var front := run[..|run| - 1];
      ClosingFrom(cfg, s, front);
      RunKeepsFrom(cfg, s, front);
      ClosingStep(cfg, Final(cfg, s, front), run[|run| - 1]);
    }
  }

  /** Once disconnecting, no byte is added, unless a send queued earlier by another thread runs after the close. */
  lemma NoBytesAfterShutdownIff(cfg: Config, s: Stream, run: seq<Label>)
    requires Inv(cfg, s) && s.state == Disconnecting && Executes(cfg, s, run)
    ensures Final(cfg, s, run).accepted == s.accepted <==> NoLateSend(cfg, s, run)
  {
    ClosingFrom(cfg, s, run);
  }

  /** Shut down with [x] still pending, then closed by the peer; a send queued meanwhile runs last. */
  function ShutWithPending(x: byte): seq<Label> {
    Blocked([x]) + [CallShutdown]
  }

  function LateSendRun(x: byte, y: byte): seq<Label> {
    ShutWithPending(x) + [Close] + [RunQueuedSend([y], WouldBlock)]
  }

  lemma ShutRuns(cfg: Config, x: byte)
    ensures Executes(cfg, INIT, ShutWithPending(x))
    ensures var s := Final(cfg, INIT, ShutWithPending(x));
            s == INIT.(state := Disconnecting, accepted := [x], out := Append(EMPTY, [x]), writing := true,
                       notes := s.notes)
  {
    hide Append, SendInLoop, Enqueue, Executes, Blocked;
    BlockedRuns(cfg, [x]);
    AppendReadable(EMPTY, [x]);
    Snoc(cfg, INIT, Blocked([x]), CallShutdown);
  }

  /** A run in which a byte is added after shutdown. */
  lemma LateByteAdded(cfg: Config, x: byte, y: byte)
    ensures Executes(cfg, INIT, ShutWithPending(x)) && Executes(cfg, INIT, LateSendRun(x, y))
    ensures Final(cfg, INIT, ShutWithPending(x)).state == Disconnecting
    ensures Final(cfg, INIT, ShutWithPending(x)).accepted == [x]
    ensures Final(cfg, INIT, LateSendRun(x, y)).accepted == [x, y]
  {
    hide Append, Executes, ShutWithPending;
    ShutRuns(cfg, x);
    AppendReadable(EMPTY, [x]);
    ReadableSize(Append(EMPTY, [x]));
    assert EMPTY.Readable() == [];
    Snoc(cfg, INIT, ShutWithPending(x), Close);
    var s := Final(cfg, INIT, ShutWithPending(x) + [Close]);
    assert Occupancy(s) == 1;
    Snoc(cfg, INIT, ShutWithPending(x) + [Close], RunQueuedSend([y], WouldBlock));
    assert [x] + [y] == [x, y];
  }

  // ---------------------------------------------------------------- high water

  ghost function Level(cfg: Config, run: seq<Label>, i: nat): nat
    requires Executes(cfg, INIT, run) && i <= |run|
  {
    Prefixes(cfg, INIT, run, i);
    RunKeeps(cfg, run[..i]);
    Occupancy(Before(cfg, run, i))
  }

  /** Step `i` of the run queues a high-water callback. */
  ghost predicate Alarms(cfg: Config, run: seq<Label>, i: nat)
    requires Executes(cfg, INIT, run) && i < |run|
  {
    var s, r := Before(cfg, run, i), Before(cfg, run, i + 1);
    exists k | |s.notes| <= k < |r.notes| :: r.notes[k].HighWater?
  }

  lemma AlarmIff(cfg: Config, run: seq<Label>, i: nat)
    requires cfg.wantsHighWater && Executes(cfg, INIT, run) && i < |run|
    ensures Alarms(cfg, run, i) <==> Level(cfg, run, i) < cfg.mark < Level(cfg, run, i + 1)
  {
    Prefixes(cfg, INIT, run, i);
    RunKeeps(cfg, run[..i]);
    AlarmStep(cfg, Before(cfg, run, i), run[i]);
  }

  lemma AlarmStep(cfg: Config, s: Stream, a: Label)
    requires cfg.wantsHighWater && Inv(cfg, s) && Enabled(cfg, s, a)
    ensures var r := Apply(cfg, s, a);
            r.out.Valid() &&
            ((exists k | |s.notes| <= k < |r.notes| :: r.notes[k].HighWater?)
             <==> Occupancy(s) < cfg.mark < Occupancy(r))
  {
    StepKeeps(cfg, s, a);
    var r := Apply(cfg, s, a);
    if Sends(s, a) {
      AlarmSend(cfg, s, a.data, a.k);
    } else {
      assert Occupancy(r) <= Occupancy(s);
    }
  }

  lemma AlarmSend(cfg: Config, s: Stream, data: seq<byte>, k: Kernel)
    requires cfg.wantsHighWater && s.out.Valid() && Written(s, k) <= |data|
    ensures var r := SendInLoop(cfg, s, data, k);
            r.out.Valid() &&
            ((exists k | |s.notes| <= k < |r.notes| :: r.notes[k].HighWater?)
             <==> Occupancy(s) < cfg.mark < Occupancy(r))
  {
    var r := SendInLoop(cfg, s, data, k);
    var n := Written(s, k);
    if s.state != Disconnecting && !Faults(s, k) && n < |data| {
      EnqueueFacts(cfg, s.(wire := s.wire + data[..n], accepted := s.accepted + data), data[n..]);
      if Occupancy(s) < cfg.mark < Occupancy(r) {
        assert r.notes[|s.notes|].HighWater?;
      }
    }
  }

  /** Between two alarms the occupancy has been strictly below the mark, and each leaves it strictly above. */
  lemma BetweenAlarms(cfg: Config, run: seq<Label>, i: nat, j: nat)
    requires cfg.wantsHighWater && Executes(cfg, INIT, run) && i < j < |run|
    requires Alarms(cfg, run, i) && Alarms(cfg, run, j)
    ensures Level(cfg, run, i + 1) > cfg.mark
    ensures exists m | i + 1 < m <= j :: Level(cfg, run, m) < cfg.mark
  {
    AlarmIff(cfg, run, i);
    AlarmIff(cfg, run, j);
  }

  /**
   * While the occupancy stays above the mark no alarm follows; whether there was one when it went up
   * depends on where it last stood at or below the mark: exactly on it, the crossing is missed.
   */
  lemma MissedCrossing(cfg: Config, run: seq<Label>, i: nat)
    requires cfg.wantsHighWater && Executes(cfg, INIT, run) && i < |run|
    requires Level(cfg, run, i) <= cfg.mark
    requires forall m | i < m <= |run| :: Level(cfg, run, m) > cfg.mark
    ensures (exists j | i <= j < |run| :: Alarms(cfg, run, j)) <==> Level(cfg, run, i) != cfg.mark
  {
    forall j | i <= j < |run|
      ensures Alarms(cfg, run, j) <==> j == i && Level(cfg, run, i) < cfg.mark
    {
      AlarmIff(cfg, run, j);
    }
    if Level(cfg, run, i) < cfg.mark {
      assert Alarms(cfg, run, i);
    }
  }

  /** Exactly the mark, and then one byte more. */
  function OnTheMark(cfg: Config, x: byte): seq<Label> {
    Blocked(Zeros(cfg.mark)) + [Send([x], WouldBlock)]
  }

  lemma FillToMark(cfg: Config)
    requires cfg.mark > 0
    ensures Executes(cfg, INIT, Blocked(Zeros(cfg.mark)))
    ensures Final(cfg, INIT, Blocked(Zeros(cfg.mark)))
            == INIT.(state := Connected, accepted := Zeros(cfg.mark), out := Append(EMPTY, Zeros(cfg.mark)),
                     writing := true)
  {
    hide Append, SendInLoop, Enqueue;
    var data := Zeros(cfg.mark);
    BlockedRuns(cfg, data);
    var s1 := INIT.(state := Connected);
    Snoc(cfg, INIT, [], Establish);
    BlockedSend(cfg, data);
    Snoc(cfg, INIT, [] + [Establish], Send(data, WouldBlock));
    NoAlarmAtMark(cfg, s1, data);
  }

  lemma NoAlarmAtMark(cfg: Config, s: Stream, data: seq<byte>)
    requires s.out.Valid() && Occupancy(s) == 0 && |data| <= cfg.mark && !s.writing
    ensures SendInLoop(cfg, s, data, WouldBlock).notes == s.notes
  {
    hide Append;
    assert data[0..] == data;
  }

  /** A run that takes the occupancy from nothing to one above the mark, and no callback is ever queued. */
  lemma CrossingMissed(cfg: Config, x: byte)
    requires cfg.wantsHighWater && cfg.mark > 0
    ensures Executes(cfg, INIT, OnTheMark(cfg, x)) && |OnTheMark(cfg, x)| == 3
    ensures Level(cfg, OnTheMark(cfg, x), 3) == cfg.mark + 1
    ensures Final(cfg, INIT, OnTheMark(cfg, x)).notes == []
  {
    hide Append;
    var data := Zeros(cfg.mark);
    FillToMark(cfg);
    AppendReadable(EMPTY, data);
    ReadableSize(EMPTY);
    ReadableSize(Append(EMPTY, data));
    var s := Final(cfg, INIT, Blocked(data));
    assert Occupancy(s) == cfg.mark;
    Snoc(cfg, INIT, Blocked(data), Send([x], WouldBlock));
    AppendReadable(s.out, [x]);
    ReadableSize(s.out);
    ReadableSize(Append(s.out, [x]));
    assert [x][0..] == [x];
    assert OnTheMark(cfg, x)[..3] == OnTheMark(cfg, x);
  }
}
