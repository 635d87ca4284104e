/**
 * What each step of the output stream does, told from the step and the state before it alone, and
 * what that makes of whole runs.
 */
module StreamLaws {
  import opened ConnState
  import opened BufferSpec
  import opened StreamSpec
  import opened StreamRuns

  /** Nothing waits and nobody has asked for writability, so a send tries the socket first. */
  predicate Idle(s: Stream) {
    !s.writing && s.out.reader == s.out.writer
  }

  /** The step is a send that the state lets in and the socket does not fault. */
  predicate LetIn(s: Stream, a: Label) {
    match a
    case Send(_, k) => s.state == Connected && !(Idle(s) && k == Broken)
    case RunQueuedSend(_, k) => s.state != Disconnecting && !(Idle(s) && k == Broken)
    case _ => false
  }

  /** The message a step takes on: all of it or nothing. */
  function Taken(s: Stream, a: Label): seq<byte> {
    if LetIn(s, a) then a.data else []
  }

  /** The bytes of a message that go straight to the socket. */
  function Straight(s: Stream, a: Label): nat {
    if LetIn(s, a) && Idle(s) && a.k.Wrote? then a.k.n else 0
  }

  /** The bytes a step puts on the wire. */
  function Put(cfg: Config, s: Stream, a: Label): seq<byte>
    requires Enabled(cfg, s, a)
  {
    if LetIn(s, a) then a.data[..Straight(s, a)]
    else if a.Writable? && s.writing && a.k.Wrote? then
      if cfg.form == Meant then s.out.store[s.out.reader..s.out.writer][..a.k.n]
      else s.out.store[s.out.reader..s.out.reader + a.k.n]
    else []
  }

  /** Some of the message has to wait. */
  predicate LeavesRest(s: Stream, a: Label) {
    LetIn(s, a) && Straight(s, a) < |a.data|
  }

  /** The kernel takes all that was waiting. */
  predicate Empties(s: Stream, a: Label) {
    a.Writable? && s.writing && a.k.Wrote? && a.k.n > 0 && a.k.n >= s.out.writer - s.out.reader
  }

  // ---------------------------------------------------------------- one step

  lemma StraightFacts(cfg: Config, s: Stream, a: Label)
    requires Enabled(cfg, s, a) && LetIn(s, a)
    ensures Straight(s, a) == Written(s, a.k) <= |a.data| && !Faults(s, a.k) && Sends(s, a)
  {
  }

  lemma SendTotals(cfg: Config, s: Stream, a: Label)
    requires Enabled(cfg, s, a) && LetIn(s, a)
    ensures var r := SendInLoop(cfg, s, a.data, a.k);
            && Written(s, a.k) <= |a.data|
            && r.accepted == s.accepted + a.data && r.wire == s.wire + a.data[..Straight(s, a)]
  {
    hide Append;
    StraightFacts(cfg, s, a);
  }

  lemma Refused(cfg: Config, s: Stream, a: Label)
    requires Enabled(cfg, s, a) && !LetIn(s, a) && (a.Send? || a.RunQueuedSend?)
    ensures Apply(cfg, s, a) == s
  {
  }

  lemma WriteTotals(cfg: Config, s: Stream, k: Kernel)
    requires Inv(cfg, s) && Enabled(cfg, s, Writable(k))
    ensures var r := HandleWrite(cfg, s, k);
            r.accepted == s.accepted && r.wire == s.wire + Put(cfg, s, Writable(k))
  {
    hide Drained, Retrieve;
    if s.writing && k.Wrote? && k.n > 0 {
      var s1 := s.(
        wire := s.wire + Offered(cfg.form, s.out)[..k.n],
        out := Retrieve(s.out, k.n),
        overshoot := s.overshoot + if k.n > Occupancy(s) then k.n - Occupancy(s) else 0);
      DrainedTotals(cfg, s1);
      assert Offered(cfg.form, s.out)[..k.n] == Put(cfg, s, Writable(k));
    }
  }

  lemma DrainedTotals(cfg: Config, s: Stream)
    ensures var r := Drained(cfg, s); r.accepted == s.accepted && r.wire == s.wire
  {
  }

  /** A message let in is taken on whole, what the kernel takes goes on the wire, and nothing else does either. */
  lemma StepTotals(cfg: Config, s: Stream, a: Label)
    requires Inv(cfg, s) && Enabled(cfg, s, a)
    ensures var r := Apply(cfg, s, a);
            r.accepted == s.accepted + Taken(s, a) && r.wire == s.wire + Put(cfg, s, a)
  {
    hide SendInLoop, HandleWrite;
    match a
    case Send(_, _) => if LetIn(s, a) { SendTotals(cfg, s, a); } else { Refused(cfg, s, a); }
    case RunQueuedSend(_, _) => if LetIn(s, a) { SendTotals(cfg, s, a); } else { Refused(cfg, s, a); }
    case Writable(k) => WriteTotals(cfg, s, k);
    case _ =>
  }

  /** What waits after a step, and whether it asks for writability. */
  lemma StepWaits(cfg: Config, s: Stream, a: Label)
    requires Inv(cfg, s) && Enabled(cfg, s, a)
    ensures var r := Apply(cfg, s, a);
            && r.out.Valid()
            && (LeavesRest(s, a) ==> r.writing && r.out.Readable() == s.out.Readable() + a.data[Straight(s, a)..])
            && (a.Writable? && s.writing && a.k.Wrote? && !Empties(s, a) ==>
                  r.writing && r.out.Readable() == s.out.Readable()[a.k.n..])
            && (Empties(s, a) ==> !r.writing && r.out.Readable() == [])
            && (a.Close? ==> !r.writing && r.out == s.out)
            && (!LeavesRest(s, a) && !(a.Writable? && s.writing && a.k.Wrote?) && !a.Close? ==>
                  r.writing == s.writing && r.out == s.out)
  {
    hide SendInLoop, HandleWrite;
    match a
    case Send(_, _) => if LetIn(s, a) { SendWaits(cfg, s, a); } else { Refused(cfg, s, a); }
    case RunQueuedSend(_, _) => if LetIn(s, a) { SendWaits(cfg, s, a); } else { Refused(cfg, s, a); }
    case Writable(k) => WriteWaits(cfg, s, k);
    case _ =>
  }

  lemma SendWaits(cfg: Config, s: Stream, a: Label)
    requires Inv(cfg, s) && Enabled(cfg, s, a) && LetIn(s, a)
    ensures Written(s, a.k) <= |a.data|
    ensures var r := SendInLoop(cfg, s, a.data, a.k);
            && r.out.Valid()
            && (LeavesRest(s, a) ==> r.writing && r.out.Readable() == s.out.Readable() + a.data[Straight(s, a)..])
            && (!LeavesRest(s, a) ==> r.writing == s.writing && r.out == s.out)
  {
    hide Append, NotesInv, Conserved;
    StraightFacts(cfg, s, a);
    AppendReadable(s.out, a.data[Straight(s, a)..]);
  }

  lemma WriteWaits(cfg: Config, s: Stream, k: Kernel)
    requires Inv(cfg, s) && Enabled(cfg, s, Writable(k))
    ensures var r := HandleWrite(cfg, s, k);
            && r.out.Valid()
            && (s.writing && k.Wrote? && !Empties(s, Writable(k)) ==>
                  r.writing && r.out.Readable() == s.out.Readable()[k.n..])
            && (Empties(s, Writable(k)) ==> !r.writing && r.out.Readable() == [])
            && (!(s.writing && k.Wrote?) ==> r.writing == s.writing && r.out == s.out)
  {
    hide NotesInv, Conserved, Offered;
    ReadableSize(s.out);
    assert s.out.Readable()[0..] == s.out.Readable();
  }

  /** The state, and what other threads have under way. */
  lemma StepStates(cfg: Config, s: Stream, a: Label)
    requires Enabled(cfg, s, a)
    ensures var r := Apply(cfg, s, a);
            && r.state == (match a
                           case Establish => Connected
                           case CallShutdown => if s.state == Connected then Disconnecting else s.state
                           case StoreShutdown => Disconnecting
                           case Close => Disconnected
                           case _ => s.state)
            && r.checked == s.checked + (if a.CheckShutdown? then 1 else if a.StoreShutdown? then -1 else 0)
            && r.handed == s.handed + (if a.StoreShutdown? then 1 else if a.RunShutdown? then -1 else 0)
            && r.closed == (s.closed || a.Close?)
  {
    hide Offered, Append;
  }

  // ---------------------------------------------------------------- what is queued or asked of the socket

  /** The alarm of a step, if any: the occupancy goes from below the mark to above it. */
  function AlarmOf(cfg: Config, s: Stream, a: Label): seq<Note> {
    if LeavesRest(s, a) && cfg.wantsHighWater then
      var before := s.out.writer - s.out.reader;
      var after := before + |a.data| - Straight(s, a);
      if before < cfg.mark && after > cfg.mark && after >= 0 then [HighWater(after)] else []
    else []
  }

  /** The write-complete callback of a step, if any: nothing waits after a write. */
  function CompleteOf(cfg: Config, s: Stream, a: Label, r: Stream): seq<Note> {
    if cfg.wantsComplete
       && (Empties(s, a) || (LetIn(s, a) && Idle(s) && a.k == Wrote(|a.data|)))
    then [WriteComplete(r.wire, r.accepted)] else []
  }

  /** The half-close of a step, if any. */
  function ShutOf(s: Stream, a: Label, r: Stream): seq<Note> {
    if || (a.CallShutdown? && s.state == Connected && !s.writing)
       || (Empties(s, a) && s.state == Disconnecting)
       || (a.RunShutdown? && !s.writing)
    then [HalfClose(r.wire, r.accepted)] else []
  }

  /** A step queues and asks for exactly this. */
  lemma StepNotes(cfg: Config, s: Stream, a: Label)
    requires Inv(cfg, s) && Enabled(cfg, s, a)
    ensures var r := Apply(cfg, s, a);
            r.notes == s.notes + AlarmOf(cfg, s, a) + CompleteOf(cfg, s, a, r) + ShutOf(s, a, r)
  {
    hide SendInLoop, HandleWrite;
    match a
    case Send(_, _) => if LetIn(s, a) { SendNotes(cfg, s, a); } else { Refused(cfg, s, a); }
    case RunQueuedSend(_, _) => if LetIn(s, a) { SendNotes(cfg, s, a); } else { Refused(cfg, s, a); }
    case Writable(k) => WriteNotes(cfg, s, k);
    case _ =>
  }

  lemma SendNotes(cfg: Config, s: Stream, a: Label)
    requires Inv(cfg, s) && Enabled(cfg, s, a) && LetIn(s, a)
    ensures Written(s, a.k) <= |a.data|
    ensures var r := SendInLoop(cfg, s, a.data, a.k);
            r.notes == s.notes + AlarmOf(cfg, s, a) + CompleteOf(cfg, s, a, r) + ShutOf(s, a, r)
  {
    hide Append, NotesInv, Conserved;
    StraightFacts(cfg, s, a);
    assert s.notes + [] == s.notes;
  }

  lemma WriteNotes(cfg: Config, s: Stream, k: Kernel)
    requires Inv(cfg, s) && Enabled(cfg, s, Writable(k))
    ensures var r := HandleWrite(cfg, s, k);
            var a := Writable(k);
            r.notes == s.notes + AlarmOf(cfg, s, a) + CompleteOf(cfg, s, a, r) + ShutOf(s, a, r)
  {
    hide NotesInv, Conserved, Offered;
    assert s.notes + [] == s.notes;
  }

  // ---------------------------------------------------------------- whole runs

  function Flat(parts: seq<seq<byte>>): seq<byte> {
    if parts == [] then [] else Flat(parts[..|parts| - 1]) + parts[|parts| - 1]
  }

  /** What each step of the run took on. */
  ghost function TakenIn(cfg: Config, run: seq<Label>): seq<seq<byte>>
    requires Executes(cfg, INIT, run)
  {
    seq(|run|, i requires 0 <= i < |run| => Taken(Before(cfg, run, i), run[i]))
  }

  /** What each step of the run put on the wire. */
  ghost function PutIn(cfg: Config, run: seq<Label>): seq<seq<byte>>
    requires Executes(cfg, INIT, run)
  {
    seq(|run|, i requires 0 <= i < |run| =>
      Prefixes(cfg, INIT, run, i);
      Put(cfg, Before(cfg, run, i), run[i]))
  }

  lemma {:induction false} TotalsRun(cfg: Config, run: seq<Label>)
    requires Executes(cfg, INIT, run)
    ensures Final(cfg, INIT, run).accepted == Flat(TakenIn(cfg, run))
    ensures Final(cfg, INIT, run).wire == Flat(PutIn(cfg, run))
    decreases |run|
  {
    hide Taken, Put, Inv, Apply, Enabled;
    if run != [] {
      var front, a := run[..|run| - 1], run[|run| - 1];
      BeforeFront(cfg, run);
      TotalsRun(cfg, front);
      RunKeeps(cfg, front);
      StepTotals(cfg, Final(cfg, INIT, front), a);
      assert TakenIn(cfg, run)[..|run| - 1] == TakenIn(cfg, front);
      assert PutIn(cfg, run)[..|run| - 1] == PutIn(cfg, front);
    }
  }

  /** `accepted` is the concatenation of all messages neither refused nor faulted, each of them whole. */
  lemma AcceptedIsTaken(cfg: Config, run: seq<Label>)
    requires Executes(cfg, INIT, run)
    ensures Final(cfg, INIT, run).accepted == Flat(TakenIn(cfg, run))
  {
    TotalsRun(cfg, run);
  }

  /** `wire` is the concatenation of what each write took. */
  lemma WireIsPut(cfg: Config, run: seq<Label>)
    requires Executes(cfg, INIT, run)
    ensures Final(cfg, INIT, run).wire == Flat(PutIn(cfg, run))
  {
    TotalsRun(cfg, run);
  }

  /** So what was sent and not refused is what the writes took, followed by what still waits. */
  lemma SentIsWrittenOrWaits(cfg: Config, run: seq<Label>)
    requires cfg.form == Meant && Executes(cfg, INIT, run)
    ensures Final(cfg, INIT, run).out.Valid()
    ensures Flat(TakenIn(cfg, run)) == Flat(PutIn(cfg, run)) + Final(cfg, INIT, run).out.Readable()
  {
    TotalsRun(cfg, run);
    StreamConserved(cfg, run);
  }
}
