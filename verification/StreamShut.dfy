/**
 * SHUT_WR over every run: shutdown on the loop's own thread, or tested and stored by other threads,
 * whose shutdownInLoop runs when the loop gets to it.
 */
module StreamShut {
  import opened ConnState
  import opened BufferSpec
  import opened StreamSpec
  import opened StreamRuns

  function HalfCloses(notes: seq<Note>): nat {
    if notes == [] then 0
    else HalfCloses(notes[..|notes| - 1]) + if notes[|notes| - 1].HalfClose? then 1 else 0
  }

  lemma HalfClosesSnoc(notes: seq<Note>, n: Note)
    ensures HalfCloses(notes + [n]) == HalfCloses(notes) + if n.HalfClose? then 1 else 0
  {
    assert (notes + [n])[..|notes|] == notes;
  }

  // ---------------------------------------------------------------- which steps issue it

  /** A writable event in which the kernel takes all that is pending. */
  predicate Drains(s: Stream, a: Label) {
    s.out.Valid() && a.Writable? && s.writing && a.k.Wrote? && a.k.n > 0 && a.k.n >= Occupancy(s)
  }

  /** shutdownInLoop runs for another thread and finds no write interest. */
  predicate RunsIdle(s: Stream, a: Label) {
    a.RunShutdown? && s.handed > 0 && !s.writing
  }

  predicate Shuts(s: Stream, a: Label) {
    || (a.CallShutdown? && s.state == Connected && !s.writing)
    || (Drains(s, a) && s.state == Disconnecting)
    || RunsIdle(s, a)
  }

  /** What a step adds to the notes. */
  ghost predicate Adds(s: Stream, r: Stream, shuts: bool) {
    && |s.notes| <= |r.notes| && r.notes[..|s.notes|] == s.notes
    && HalfCloses(r.notes) == HalfCloses(s.notes) + (if shuts then 1 else 0)
    && (forall i | |s.notes| <= i < |r.notes| && r.notes[i].HalfClose? :: r.notes[i] == HalfClose(r.wire, r.accepted))
    && (shuts ==> r.notes != s.notes && r.notes[|r.notes| - 1].HalfClose?)
    && (!shuts ==> forall i | |s.notes| <= i < |r.notes| :: !r.notes[i].HalfClose?)
  }

  lemma OneAdds(s: Stream, r: Stream, n: Note)
    requires r.notes == s.notes + [n] && (n.HalfClose? ==> n == HalfClose(r.wire, r.accepted))
    ensures Adds(s, r, n.HalfClose?)
  {
    hide HalfCloses;
    HalfClosesSnoc(s.notes, n);
    assert r.notes[..|s.notes|] == s.notes;
    assert r.notes[|s.notes|] == n;
  }

  lemma NotifyAdds(cfg: Config, s: Stream)
    ensures Adds(s, Notify(cfg, s), false)
  {
    hide Adds;
    if cfg.wantsComplete {
      OneAdds(s, Notify(cfg, s), WriteComplete(s.wire, s.accepted));
    } else {
      StillAdds(s);
    }
  }

  lemma ShutAdds(s: Stream)
    ensures Adds(s, ShutdownInLoop(s), !s.writing)
  {
    hide Adds;
    if s.writing {
      StillAdds(s);
    } else {
      OneAdds(s, ShutdownInLoop(s), HalfClose(s.wire, s.accepted));
    }
  }

  lemma EnqueueAdds(cfg: Config, s: Stream, rest: seq<byte>)
    requires s.out.Valid()
    ensures Adds(s, Enqueue(cfg, s, rest), false)
  {
    hide Adds, Append;
    var r := Enqueue(cfg, s, rest);
    if r.notes == s.notes {
      SameAdds(s, r);
    } else {
      OneAdds(s, r, HighWater(Occupancy(s) + |rest|));
    }
  }

  lemma SendAdds(cfg: Config, s: Stream, data: seq<byte>, k: Kernel)
    requires s.out.Valid() && Written(s, k) <= |data|
    ensures Adds(s, SendInLoop(cfg, s, data, k), false)
  {
    hide Adds, Enqueue, Notify;
    var n := Written(s, k);
    var s1 := s.(wire := s.wire + data[..n], accepted := s.accepted + data);
    StillAdds(s);
    SameAdds(s, s1);
    NotifyAdds(cfg, s1);
    AddsAfter(s, s1, Notify(cfg, s1), false);
    EnqueueAdds(cfg, s1, data[n..]);
    AddsAfter(s, s1, Enqueue(cfg, s1, data[n..]), false);
  }

  /** A note that is no half-close, and then perhaps one that is. */
  lemma TwoAdd(s: Stream, s1: Stream, r: Stream, shuts: bool)
    requires Adds(s, s1, false) && Adds(s1, r, shuts)
    ensures Adds(s, r, shuts)
  {
    hide HalfCloses;
    assert r.notes[..|s.notes|] == r.notes[..|s1.notes|][..|s.notes|];
    assert forall i | |s.notes| <= i < |s1.notes| :: r.notes[i] == r.notes[..|s1.notes|][i] == s1.notes[i];
  }

  lemma DrainedAdds(cfg: Config, s: Stream)
    ensures Adds(s, Drained(cfg, s), s.state == Disconnecting)
  {
    hide Adds;
    var s1 := s.(writing := false);
    var s2 := Notify(cfg, s1);
    NotifyAdds(cfg, s1);
    AddsAfter(s, s1, s2, false);
    if s.state == Disconnecting {
      ShutAdds(s2);
      TwoAdd(s, s2, ShutdownInLoop(s2), true);
    }
  }

  lemma WriteAdds(cfg: Config, s: Stream, k: Kernel)
    requires s.out.Valid() && Enabled(cfg, s, Writable(k))
    ensures Adds(s, HandleWrite(cfg, s, k), Drains(s, Writable(k)) && s.state == Disconnecting)
  {
    hide HalfCloses, Drained, Offered, Adds;
    StillAdds(s);
    if s.writing && k.Wrote? && k.n > 0 {
      var s1 := s.(
        wire := s.wire + Offered(cfg.form, s.out)[..k.n],
        out := Retrieve(s.out, k.n),
        overshoot := s.overshoot + if k.n > Occupancy(s) then k.n - Occupancy(s) else 0);
      SameAdds(s, s1);
      if k.n >= Occupancy(s) {
        assert Occupancy(s1) == 0;
        DrainedAdds(cfg, s1);
        AddsAfter(s, s1, Drained(cfg, s1), s.state == Disconnecting);
      }
    }
  }

  lemma StillAdds(s: Stream)
    ensures Adds(s, s, false)
  {
  }

  lemma SameAdds(s: Stream, r: Stream)
    requires r.notes == s.notes
    ensures Adds(s, r, false)
  {
  }

  lemma AddsAfter(s: Stream, s1: Stream, r: Stream, shuts: bool)
    requires s1.notes == s.notes && Adds(s1, r, shuts)
    ensures Adds(s, r, shuts)
  {
  }

  lemma StepAdds(cfg: Config, s: Stream, a: Label)
    requires Enabled(cfg, s, a)
    ensures Adds(s, Apply(cfg, s, a), Shuts(s, a))
  {
    hide Adds, SendInLoop, HandleWrite, ShutdownInLoop;
    match a
    case Send(data, k) => if s.state == Connected { SendAdds(cfg, s, data, k); } else { StillAdds(s); }
    case RunQueuedSend(data, k) => SendAdds(cfg, s, data, k);
    case Writable(k) => WriteAdds(cfg, s, k);
    case CallShutdown =>
      if s.state == Connected {
        var s1 := s.(state := Disconnecting);
        ShutAdds(s1);
        AddsAfter(s, s1, ShutdownInLoop(s1), !s.writing);
      } else {
        StillAdds(s);
      }
    case RunShutdown =>
      var s1 := s.(handed := s.handed - 1);
      ShutAdds(s1);
      AddsAfter(s, s1, ShutdownInLoop(s1), !s.writing);
    case _ => SameAdds(s, Apply(cfg, s, a));
  }

  // ---------------------------------------------------------------- SHUT_WR with bytes pending

  /** shutdownInLoop runs for another thread on a connection that has been closed with bytes left over. */
  predicate ShutsWaiting(s: Stream, a: Label) {
    RunsIdle(s, a) && s.out.Valid() && Occupancy(s) > 0
  }

  lemma WaitingStep(cfg: Config, s: Stream, a: Label)
    requires Inv(cfg, s) && cfg.form.Meant? && Enabled(cfg, s, a)
    ensures var r := Apply(cfg, s, a);
            && |s.notes| <= |r.notes| && r.notes[..|s.notes|] == s.notes
            && (ShutsWaiting(s, a) ==> s.closed)
            && ((exists i | |s.notes| <= i < |r.notes| :: r.notes[i].HalfClose? && r.notes[i].onWire != r.notes[i].owed)
                <==> ShutsWaiting(s, a))
  {
    hide HalfCloses, SendInLoop, HandleWrite;
    StepAdds(cfg, s, a);
    StepKeeps(cfg, s, a);
    var r := Apply(cfg, s, a);
    ReadableSize(r.out);
    if Shuts(s, a) {
      ShutOccupancy(cfg, s, a);
      assert r.notes[|r.notes| - 1] == HalfClose(r.wire, r.accepted);
    }
  }

  /** What is pending when a step issues SHUT_WR. */
  lemma ShutOccupancy(cfg: Config, s: Stream, a: Label)
    requires Inv(cfg, s) && Enabled(cfg, s, a) && Shuts(s, a)
    ensures var r := Apply(cfg, s, a);
            r.out.Valid() && (Occupancy(r) > 0 <==> ShutsWaiting(s, a))
  {
    hide SendInLoop, Offered;
  }

  /** Some half-close was issued with accepted bytes not on the wire. */
  ghost predicate ShutEarly(notes: seq<Note>) {
    exists i | 0 <= i < |notes| :: notes[i].HalfClose? && notes[i].onWire != notes[i].owed
  }

  /**
   * SHUT_WR goes out with bytes pending in exactly the runs in which another thread's shutdownInLoop
   * finds bytes and no interest to write them.
   */
  lemma {:induction false} ShutEarlyIff(cfg: Config, run: seq<Label>)
    requires cfg.form.Meant? && Executes(cfg, INIT, run)
    ensures ShutEarly(Final(cfg, INIT, run).notes)
            <==> exists i | 0 <= i < |run| :: ShutsWaiting(Before(cfg, run, i), run[i])
    decreases |run|
  {
    hide ShutsWaiting, Inv, ShutEarly, Executes, Final, Before;
    if run == [] {
      NothingEarly(cfg);
    } else {
      var front, a := run[..|run| - 1], run[|run| - 1];
      BeforeFront(cfg, run);
      ShutEarlyIff(cfg, front);
      RunKeeps(cfg, front);
      var s := Final(cfg, INIT, front);
      WaitingStep(cfg, s, a);
      ShutEarlySnoc(s.notes, Final(cfg, INIT, run).notes);
    }
  }

  lemma NothingEarly(cfg: Config)
    ensures Executes(cfg, INIT, []) && !ShutEarly(Final(cfg, INIT, []).notes)
  {
  }

  lemma ShutEarlySnoc(notes: seq<Note>, notes': seq<Note>)
    requires |notes| <= |notes'| && notes'[..|notes|] == notes
    ensures ShutEarly(notes') <==>
              ShutEarly(notes)
              || exists i | |notes| <= i < |notes'| :: notes'[i].HalfClose? && notes'[i].onWire != notes'[i].owed
  {
    assert forall i | 0 <= i < |notes| :: notes'[i] == notes[i];
  }

  /** And that takes a close before. */
  lemma ShutEarlyClosed(cfg: Config, run: seq<Label>)
    requires cfg.form.Meant? && Executes(cfg, INIT, run) && ShutEarly(Final(cfg, INIT, run).notes)
    ensures exists i | 0 <= i < |run| :: ShutsWaiting(Before(cfg, run, i), run[i]) && Close in run[..i]
  {
    ShutEarlyIff(cfg, run);
    var i :| 0 <= i < |run| && ShutsWaiting(Before(cfg, run, i), run[i]);
    Prefixes(cfg, INIT, run, i);
    RunKeeps(cfg, run[..i]);
    ClosedIff(cfg, run[..i]);
  }

  // ---------------------------------------------------------------- SHUT_WR twice

  /** The pending bytes drain while the shutdownInLoop of another thread is still queued. */
  predicate DrainsFirst(s: Stream, a: Label) {
    Drains(s, a) && s.state == Disconnecting && s.handed > 0
  }

  ghost predicate EverDrainedFirst(cfg: Config, run: seq<Label>)
    requires Executes(cfg, INIT, run)
  {
    exists i | 0 <= i < |run| :: DrainsFirst(Before(cfg, run, i), run[i])
  }

  /** The bytes drained first, and shutdownInLoop ran later with write interest off. */
  ghost predicate DrainedThenRan(cfg: Config, run: seq<Label>)
    requires Executes(cfg, INIT, run)
  {
    exists i, j | 0 <= i < j < |run| ::
      DrainsFirst(Before(cfg, run, i), run[i]) && RunsIdle(Before(cfg, run, j), run[j])
  }

  /** The store of shutdown lands on a state that is no longer the one tested. */
  predicate Stale(s: Stream, a: Label) {
    a.StoreShutdown? && s.state != Connected
  }

  ghost predicate Clean(cfg: Config, run: seq<Label>)
    requires Executes(cfg, INIT, run)
  {
    forall i | 0 <= i < |run| :: !Stale(Before(cfg, run, i), run[i])
  }

  /** `early` and `twice` are EverDrainedFirst and DrainedThenRan of the run so far. */
  ghost predicate ShutInv(s: Stream, early: bool, twice: bool) {
    var n := HalfCloses(s.notes);
    && s.handed <= 1 && n <= 2 && (n == 2 <==> twice)
    && (s.state == Connecting || s.state == Connected ==> n == 0 && !early && s.handed == 0)
    && (s.state == Disconnecting ==> !s.closed)
    && (s.state == Disconnecting && s.writing ==> n == 0)
    && (s.state == Disconnecting && !s.writing && s.handed == 0 ==> n >= 1)
    && (s.handed == 1 ==> n <= 1 && (n == 1 <==> early))
  }

  lemma ShutStep(cfg: Config, s: Stream, a: Label, early: bool, twice: bool)
    requires Inv(cfg, s) && Enabled(cfg, s, a) && !Stale(s, a) && ShutInv(s, early, twice)
    ensures ShutInv(Apply(cfg, s, a), early || DrainsFirst(s, a), twice || (early && RunsIdle(s, a)))
  {
    hide HalfCloses, Offered, Append;
    StepAdds(cfg, s, a);
  }

  lemma EverSnoc(cfg: Config, run: seq<Label>)
    requires Executes(cfg, INIT, run) && run != [] && Executes(cfg, INIT, run[..|run| - 1])
    ensures var front, s, a := run[..|run| - 1], Final(cfg, INIT, run[..|run| - 1]), run[|run| - 1];
            && (EverDrainedFirst(cfg, run) <==> EverDrainedFirst(cfg, front) || DrainsFirst(s, a))
            && (DrainedThenRan(cfg, run)
                <==> DrainedThenRan(cfg, front) || (EverDrainedFirst(cfg, front) && RunsIdle(s, a)))
            && (Clean(cfg, run) <==> Clean(cfg, front) && !Stale(s, a))
  {
    hide DrainsFirst, RunsIdle, Stale, Executes, Final;
    BeforeFront(cfg, run);
  }

  lemma {:induction false} ShutRun(cfg: Config, run: seq<Label>)
    requires Executes(cfg, INIT, run) && Clean(cfg, run)
    ensures ShutInv(Final(cfg, INIT, run), EverDrainedFirst(cfg, run), DrainedThenRan(cfg, run))
    decreases |run|
  {
    hide ShutInv, Inv, Clean, EverDrainedFirst, DrainedThenRan, Stale, DrainsFirst, RunsIdle;
    if run == [] {
      EmptyShut(cfg);
    } else {
      var front := run[..|run| - 1];
      BeforeFront(cfg, run);
      EverSnoc(cfg, run);
      RunKeeps(cfg, front);
      ShutRun(cfg, front);
      ShutStep(cfg, Final(cfg, INIT, front), run[|run| - 1], EverDrainedFirst(cfg, front), DrainedThenRan(cfg, front));
    }
  }

  lemma EmptyShut(cfg: Config)
    ensures Executes(cfg, INIT, []) && Final(cfg, INIT, []) == INIT
    ensures ShutInv(INIT, EverDrainedFirst(cfg, []), DrainedThenRan(cfg, []))
  {
  }

  /**
   * When no store of shutdown comes late, SHUT_WR goes out twice in exactly the runs in which the
   * store found bytes pending, they drained while the queued shutdownInLoop waited, and it then ran
   * with write interest still off; never more often.
   */
  lemma ShutTwiceIff(cfg: Config, run: seq<Label>)
    requires Executes(cfg, INIT, run) && Clean(cfg, run)
    ensures HalfCloses(Final(cfg, INIT, run).notes) <= 2
    ensures HalfCloses(Final(cfg, INIT, run).notes) == 2 <==> DrainedThenRan(cfg, run)
  {
    ShutRun(cfg, run);
  }

  /** In any run, late stores or not: SHUT_WR goes out more than once exactly if two steps issue it. */
  lemma ShutsTwiceIff(cfg: Config, run: seq<Label>)
    requires Executes(cfg, INIT, run)
    ensures HalfCloses(Final(cfg, INIT, run).notes) >= 2
            <==> exists i, j | 0 <= i < j < |run| ::
                   Shuts(Before(cfg, run, i), run[i]) && Shuts(Before(cfg, run, j), run[j])
  {
    hide Shuts, HalfCloses, Executes, Final, Before, CountTrue;
    ShutsCount(cfg, run);
    MarksAre(cfg, run);
    CountFacts(ShutMarks(cfg, run));
  }

  /** Which steps of the run issue SHUT_WR. */
  ghost function ShutMarks(cfg: Config, run: seq<Label>): seq<bool>
    requires Executes(cfg, INIT, run)
    decreases |run|
  {
    if run == [] then [] else
    ShutMarks(cfg, run[..|run| - 1]) + [Shuts(Final(cfg, INIT, run[..|run| - 1]), run[|run| - 1])]
  }

  lemma {:induction false} MarksAre(cfg: Config, run: seq<Label>)
    requires Executes(cfg, INIT, run)
    ensures |ShutMarks(cfg, run)| == |run|
    ensures forall i | 0 <= i < |run| :: ShutMarks(cfg, run)[i] == Shuts(Before(cfg, run, i), run[i])
    decreases |run|
  {
    hide Shuts, Apply, Enabled, Before;
    if run != [] {
      BeforeFront(cfg, run);
      MarksAre(cfg, run[..|run| - 1]);
    }
  }

  function CountTrue(m: seq<bool>): nat {
    if m == [] then 0 else CountTrue(m[..|m| - 1]) + if m[|m| - 1] then 1 else 0
  }

  lemma {:induction false} CountFacts(m: seq<bool>)
    ensures CountTrue(m) >= 1 <==> exists i | 0 <= i < |m| :: m[i]
    ensures CountTrue(m) >= 2 <==> exists i, j | 0 <= i < j < |m| :: m[i] && m[j]
  {
    if m != [] {
      var front := m[..|m| - 1];
      CountFacts(front);
      assert forall i | 0 <= i < |front| :: front[i] == m[i];
    }
  }

  lemma {:induction false} ShutsCount(cfg: Config, run: seq<Label>)
    requires Executes(cfg, INIT, run)
    ensures HalfCloses(Final(cfg, INIT, run).notes) == CountTrue(ShutMarks(cfg, run))
    decreases |run|
  {
    hide Shuts, Apply, Enabled, Before;
    if run != [] {
      var front := run[..|run| - 1];
      BeforeFront(cfg, run);
      ShutsCount(cfg, front);
      MarksAre(cfg, front);
      StepAdds(cfg, Final(cfg, INIT, front), run[|run| - 1]);
      assert ShutMarks(cfg, run)[..|run| - 1] == ShutMarks(cfg, front);
    }
  }

  // ---------------------------------------------------------------- shutdown on the loop's own thread

  lemma {:induction false} NothingHanded(cfg: Config, run: seq<Label>)
    requires Executes(cfg, INIT, run) && StoreShutdown !in run
    ensures Clean(cfg, run) && !EverDrainedFirst(cfg, run) && !DrainedThenRan(cfg, run)
    ensures Final(cfg, INIT, run).handed == 0
    decreases |run|
  {
    hide SendInLoop, HandleWrite, Clean, EverDrainedFirst, DrainedThenRan;
    if run == [] {
      EmptyClean(cfg);
    } else {
      var front, a := run[..|run| - 1], run[|run| - 1];
      assert run == front + [a];
      NothingHanded(cfg, front);
      BeforeFront(cfg, run);
      EverSnoc(cfg, run);
      HandedStep(cfg, Final(cfg, INIT, front), a);
    }
  }

  lemma EmptyClean(cfg: Config)
    ensures Executes(cfg, INIT, []) && Clean(cfg, []) && !EverDrainedFirst(cfg, []) && !DrainedThenRan(cfg, [])
  {
  }

  lemma HandedStep(cfg: Config, s: Stream, a: Label)
    requires Enabled(cfg, s, a) && s.handed == 0 && !a.StoreShutdown?
    ensures Apply(cfg, s, a).handed == 0
  {
  }

  /**
   * With shutdown on the loop's thread only, SHUT_WR goes out once at most; while disconnecting it has
   * gone out exactly when nothing is pending.
   */
  lemma HalfCloseOnce(cfg: Config, run: seq<Label>)
    requires Executes(cfg, INIT, run) && StoreShutdown !in run
    ensures var s := Final(cfg, INIT, run);
            && s.out.Valid() && HalfCloses(s.notes) <= 1
            && (s.state == Disconnecting ==> (HalfCloses(s.notes) == 1 <==> s.out.Readable() == []))
            && (s.state == Connecting || s.state == Connected ==> HalfCloses(s.notes) == 0)
  {
    hide Clean, EverDrainedFirst, DrainedThenRan;
    NothingHanded(cfg, run);
    ShutRun(cfg, run);
    RunKeeps(cfg, run);
    ReadableSize(Final(cfg, INIT, run).out);
  }

  // ---------------------------------------------------------------- it does go out

  /** Writable events of the run in which the kernel takes at least one byte. */
  function PositiveWrites(run: seq<Label>): nat {
    if run == [] then 0 else
    var a := run[|run| - 1];
    PositiveWrites(run[..|run| - 1]) + if a.Writable? && a.k.Wrote? && a.k.n > 0 then 1 else 0
  }

  /** A disconnecting connection that writes no more has half-closed, or its shutdownInLoop is still queued. */
  ghost predicate Promise(s: Stream) {
    s.state == Disconnecting && !s.writing ==> HalfCloses(s.notes) >= 1 || s.handed > 0
  }

  lemma PromiseStep(cfg: Config, s: Stream, a: Label)
    requires Inv(cfg, s) && Promise(s) && Enabled(cfg, s, a)
    ensures Promise(Apply(cfg, s, a))
  {
    hide HalfCloses, Offered, Append;
    StepAdds(cfg, s, a);
  }

  lemma {:induction false} PromiseRun(cfg: Config, run: seq<Label>)
    requires Executes(cfg, INIT, run)
    ensures Promise(Final(cfg, INIT, run))
    decreases |run|
  {
    hide Promise, Inv;
    if run == [] {
      InitPromise();
    } else {
      var front := run[..|run| - 1];
      BeforeFront(cfg, run);
      RunKeeps(cfg, front);
      PromiseRun(cfg, front);
      PromiseStep(cfg, Final(cfg, INIT, front), run[|run| - 1]);
    }
  }

  lemma InitPromise()
    ensures Promise(INIT)
  {
  }

  lemma DrainStep(cfg: Config, s: Stream, a: Label)
    requires Inv(cfg, s) && Enabled(cfg, s, a) && s.state == Disconnecting && !a.Close?
    ensures var r := Apply(cfg, s, a);
            && r.state == Disconnecting && r.out.Valid() && Occupancy(r) <= Occupancy(s) && (r.writing ==> s.writing)
            && (a.Writable? && a.k.Wrote? && a.k.n > 0 && s.writing ==> Occupancy(r) < Occupancy(s))
  {
    hide Offered;
  }

  lemma {:induction false} DrainFrom(cfg: Config, s: Stream, run: seq<Label>)
    requires Inv(cfg, s) && Promise(s) && s.state == Disconnecting
    requires Executes(cfg, s, run) && forall a <- run :: !a.Close?
    ensures var r := Final(cfg, s, run);
            && r.state == Disconnecting && Inv(cfg, r) && Promise(r)
            && (r.writing ==> Occupancy(r) + PositiveWrites(run) <= Occupancy(s))
    decreases |run|
  {
    hide Promise, Apply, Inv;
    if run != [] {
      var front, a := run[..|run| - 1], run[|run| - 1];
      DrainFrom(cfg, s, front);
      assert a in run;
      var q := Final(cfg, s, front);
      DrainStep(cfg, q, a);
      StepKeeps(cfg, q, a);
      PromiseStep(cfg, q, a);
    }
  }

  lemma {:induction false} RunConcat(cfg: Config, a: seq<Label>, b: seq<Label>)
    requires Executes(cfg, INIT, a) && Executes(cfg, Final(cfg, INIT, a), b)
    ensures Executes(cfg, INIT, a + b) && Final(cfg, INIT, a + b) == Final(cfg, Final(cfg, INIT, a), b)
    decreases |b|
  {
    hide Enabled, Apply;
    if b == [] {
      assert a + b == a;
    } else {
      RunConcat(cfg, a, b[..|b| - 1]);
      assert (a + b)[..|a + b| - 1] == a + b[..|b| - 1];
    }
  }

  /**
   * From any reachable disconnecting state `s`, as many positive writes as bytes are pending, and no
   * close, are enough: SHUT_WR has gone out, unless another thread's shutdownInLoop is still queued;
   * and exactly once if no other thread has shut down.
   */
  lemma HalfCloseHappens(cfg: Config, before: seq<Label>, s: Stream, run: seq<Label>)
    requires Executes(cfg, INIT, before) && s == Final(cfg, INIT, before) && s.state == Disconnecting
    requires Executes(cfg, s, run) && (forall a <- run :: !a.Close?)
    requires s.out.Valid() && PositiveWrites(run) >= Occupancy(s)
    ensures var r := Final(cfg, s, run);
            && !r.writing && (HalfCloses(r.notes) >= 1 || r.handed > 0)
            && (StoreShutdown !in before && StoreShutdown !in run ==> HalfCloses(r.notes) == 1)
  {
    hide HalfCloses, Executes, Final;
    RunKeeps(cfg, before);
    PromiseRun(cfg, before);
    DrainFrom(cfg, s, run);
    if StoreShutdown !in before && StoreShutdown !in run {
      RunConcat(cfg, before, run);
      NothingHanded(cfg, before + run);
      HalfCloseOnce(cfg, before + run);
    }
  }

  // ---------------------------------------------------------------- the runs in which it goes wrong

  /** One byte is pending when another thread shuts down. */
  function ShutElsewhere(x: byte): seq<Label> {
    Blocked([x]) + [CheckShutdown] + [StoreShutdown]
  }

  lemma ElsewhereRuns(cfg: Config, x: byte)
    ensures Executes(cfg, INIT, ShutElsewhere(x))
    ensures var s := Final(cfg, INIT, ShutElsewhere(x));
            && s == INIT.(state := Disconnecting, accepted := [x], out := Append(EMPTY, [x]), writing := true,
                          notes := s.notes, handed := 1)
            && s.out.Valid() && Occupancy(s) == 1 && s.out.WritableBytes() >= 1 && HalfCloses(s.notes) == 0
  {
    hide Append, SendInLoop, Enqueue, Blocked, HalfCloses;
    BlockedRuns(cfg, [x]);
    BlockedNotes(cfg, x);
    OneByte(x);
    Snoc(cfg, INIT, Blocked([x]), CheckShutdown);
    Snoc(cfg, INIT, Blocked([x]) + [CheckShutdown], StoreShutdown);
  }

  lemma OneByte(x: byte)
    ensures var b := Append(EMPTY, [x]); b.Valid() && b.ReadableBytes() == 1 && b.WritableBytes() >= 1
  {
  }

  lemma BlockedNotes(cfg: Config, x: byte)
    ensures Executes(cfg, INIT, Blocked([x])) && HalfCloses(Final(cfg, INIT, Blocked([x])).notes) == 0
  {
    hide Append, HalfCloses;
    BlockedRuns(cfg, [x]);
    HalfCloseOnce(cfg, Blocked([x]));
  }

  /** The byte drains before the queued shutdownInLoop runs: SHUT_WR twice. */
  lemma SecondShut(cfg: Config, x: byte)
    ensures var run := ShutElsewhere(x) + [Writable(Wrote(1))] + [RunShutdown];
            Executes(cfg, INIT, run) && HalfCloses(Final(cfg, INIT, run).notes) == 2
  {
    hide Append, Blocked, ShutElsewhere, HalfCloses, Executes;
    ElsewhereRuns(cfg, x);
    var s := Final(cfg, INIT, ShutElsewhere(x));
    OneOffered(cfg, s);
    Snoc(cfg, INIT, ShutElsewhere(x), Writable(Wrote(1)));
    StepAdds(cfg, s, Writable(Wrote(1)));
    var s1 := Apply(cfg, s, Writable(Wrote(1)));
    assert s1.handed == 1 && !s1.writing && s1.out.Valid();
    Snoc(cfg, INIT, ShutElsewhere(x) + [Writable(Wrote(1))], RunShutdown);
    StepAdds(cfg, s1, RunShutdown);
  }

  lemma OneOffered(cfg: Config, s: Stream)
    requires s.out.Valid() && Occupancy(s) == 1 && s.out.WritableBytes() >= 1
    ensures |Offered(cfg.form, s.out)| >= 1
  {
  }

  /** The peer closes before the queued shutdownInLoop runs: SHUT_WR with the byte still pending. */
  lemma WaitingShut(cfg: Config, x: byte)
    ensures var run := ShutElsewhere(x) + [Close] + [RunShutdown];
            && Executes(cfg, INIT, run) && HalfCloses(Final(cfg, INIT, run).notes) == 1
            && Final(cfg, INIT, run).notes[|Final(cfg, INIT, run).notes| - 1] == HalfClose([], [x])
  {
    hide Append, Blocked, ShutElsewhere, HalfCloses, Executes;
    ElsewhereRuns(cfg, x);
    var s := Final(cfg, INIT, ShutElsewhere(x));
    Snoc(cfg, INIT, ShutElsewhere(x), Close);
    StepAdds(cfg, s, Close);
    var s1 := Apply(cfg, s, Close);
    Snoc(cfg, INIT, ShutElsewhere(x) + [Close], RunShutdown);
    StepAdds(cfg, s1, RunShutdown);
  }

  /** Two threads pass the test before either stores: SHUT_WR twice without a byte ever sent. */
  lemma TwoCallersShut(cfg: Config)
    ensures var run := [] + [Establish] + [CheckShutdown] + [CheckShutdown] + [StoreShutdown] + [StoreShutdown]
                       + [RunShutdown] + [RunShutdown];
            Executes(cfg, INIT, run) && HalfCloses(Final(cfg, INIT, run).notes) == 2
  {
    hide HalfCloses, Executes, Final;
    EmptyRun(cfg);
    var r1 := [] + [Establish];
    Snoc(cfg, INIT, [], Establish);
    var r2 := r1 + [CheckShutdown];
    Snoc(cfg, INIT, r1, CheckShutdown);
    var r3 := r2 + [CheckShutdown];
    Snoc(cfg, INIT, r2, CheckShutdown);
    var r4 := r3 + [StoreShutdown];
    Snoc(cfg, INIT, r3, StoreShutdown);
    var r5 := r4 + [StoreShutdown];
    Snoc(cfg, INIT, r4, StoreShutdown);
    var s := Final(cfg, INIT, r5);
    assert s == INIT.(state := Disconnecting, handed := 2);
    Snoc(cfg, INIT, r5, RunShutdown);
    StepAdds(cfg, s, RunShutdown);
    var s1 := Apply(cfg, s, RunShutdown);
    Snoc(cfg, INIT, r5 + [RunShutdown], RunShutdown);
    StepAdds(cfg, s1, RunShutdown);
    NoNotes();
  }

  lemma NoNotes()
    ensures HalfCloses([]) == 0
  {
  }

  lemma EmptyRun(cfg: Config)
    ensures Executes(cfg, INIT, []) && Final(cfg, INIT, []) == INIT
  {
  }

  /** The store comes after the close: kDisconnecting again, with a byte pending that nothing will write. */
  lemma StrandedByte(cfg: Config, x: byte)
    ensures var run := Blocked([x]) + [CheckShutdown] + [Close] + [StoreShutdown];
            && Executes(cfg, INIT, run)
            && Final(cfg, INIT, run).state == Disconnecting && !Tracks(Final(cfg, INIT, run))
  {
    hide Append, Blocked, Executes, Final;
    BlockedRuns(cfg, [x]);
    OneByte(x);
    Snoc(cfg, INIT, Blocked([x]), CheckShutdown);
    Snoc(cfg, INIT, Blocked([x]) + [CheckShutdown], Close);
    Snoc(cfg, INIT, Blocked([x]) + [CheckShutdown] + [Close], StoreShutdown);
  }
}
