/** Every step of the life-cycle machine keeps the invariant. */
module LifecycleSteps {
  import opened ConnState
  import opened Registry
  import opened Dispatch
  import opened Naming
  import opened Lifecycle
  import opened LifecycleInv

  // ---------------------------------------------------------------- steps that touch no connection

  lemma QuietKeeps(w: World, w': World)
    requires Inv(w) && Sound(w')
    requires w' == w.(loops := w'.loops, raw := w'.raw, stopping := w'.stopping, gone := w'.gone)
    requires |w'.loops| == |w.loops|
    requires forall l | 0 <= l < |w.loops| :: w'.loops[l].Queue() == w.loops[l].Queue()
    ensures Agreement(w'.poller) && w'.poller.faults == 0
    ensures Views(w') && OpenFdsDistinct(w') && NamesInv(w') && TasksPlaced(w')
  {
    forall c | 0 <= c < |w.conns| ensures ViewInv(c, ViewOf(w', c)) && (Owned(w', c) <==> Owned(w, c)) {
      assert ViewInv(c, ViewOf(w, c));
      assert ViewOf(w', c) == ViewOf(w, c);
    }
  }

  predicate IsSuffix(a: seq<nat>, b: seq<nat>) {
    |a| <= |b| && a == b[|b| - |a|..]
  }

  /** Loops only work their active lists off, and none of the channels on them is destroyed. */
  lemma DispatchKeeps(w: World, w': World)
    requires DispatchInv(w) && |w'.loops| == |w.loops|
    requires forall l | 0 <= l < |w.loops| :: IsSuffix(Active(w'.loops[l].phase), Active(w.loops[l].phase))
    requires forall l, c | 0 <= l < |w.loops| && c in Active(w'.loops[l].phase) && Undestroyed(w, l, c) ::
               Undestroyed(w', l, c)
    ensures DispatchInv(w')
  {
    forall l | 0 <= l < |w.loops|
      ensures forall c <- Active(w'.loops[l].phase) :: Undestroyed(w', l, c)
      ensures forall i, j | 0 <= i < j < |Active(w'.loops[l].phase)| ::
                Active(w'.loops[l].phase)[i] != Active(w'.loops[l].phase)[j]
    {
      var a, b := Active(w'.loops[l].phase), Active(w.loops[l].phase);
      assert forall i | 0 <= i < |a| :: a[i] == b[|b| - |a| + i];
    }
  }

  lemma PollReturnKeeps(w: World, l: nat, active: seq<Ready>)
    requires Inv(w) && Enabled(w, PollReturn(l, active))
    ensures Inv(Apply(w, PollReturn(l, active)))
  {
    hide OpenFdsDistinct, TasksPlaced, NamesInv, Owned, LoopSound, QueueInv, CountInv, Mine;
    var w' := Apply(w, PollReturn(l, active));
    QuietKeeps(w, w');
    forall i | 0 <= i < |active| ensures Undestroyed(w', l, active[i].c) {
      var r := active[i];
      assert Reportable(w, l, r);
      assert Registered(w.poller, r.c);
      MappedOwned(w, r.c);
      assert ViewInv(r.c, ViewOf(w, r.c));
    }
    assert Active(w'.loops[l].phase) == Ids(active);
  }

  lemma LoopKeeps(w: World, l: nat, loop: Loop)
    requires Inv(w) && l < |w.loops| && (l == 0 ==> !w.gone)
    requires loop.Queue() == w.loops[l].Queue() && LoopSound(loop, |w.conns|)
    requires IsSuffix(Active(loop.phase), Active(w.loops[l].phase))
    ensures Inv(w.(loops := w.loops[l := loop]))
  {
    var w' := w.(loops := w.loops[l := loop]);
    assert forall i | 0 <= i < |w.loops| :: w'.loops[i].Queue() == w.loops[i].Queue();
    QuietKeeps(w, w');
    DispatchKeeps(w, w');
  }

  lemma HeadUndestroyed(w: World, l: nat)
    requires DispatchInv(w) && l < |w.loops| && w.loops[l].phase.Dispatching? && w.loops[l].phase.active != []
    ensures Undestroyed(w, l, w.loops[l].phase.active[0].c)
  {
    assert Active(w.loops[l].phase)[0] == w.loops[l].phase.active[0].c;
  }

  lemma ActiveTail(active: seq<Ready>, todo: seq<Callback>, eof: bool)
    requires active != []
    ensures Active(Handling(active[0].c, todo, eof, active[1..])) == Active(Dispatching(active))
  {
  }

  lemma HandlingSound(w: World, l: nat, todo: seq<Callback>, eof: bool)
    requires Sound(w) && l < |w.loops| && w.loops[l].phase.Dispatching? && w.loops[l].phase.active != []
    ensures var active := w.loops[l].phase.active;
            LoopSound(w.loops[l].(phase := Handling(active[0].c, todo, eof, active[1..])), |w.conns|)
  {
    assert LoopSound(w.loops[l], |w.conns|);
  }

  lemma BeginEventKeeps(w: World, l: nat, eof: bool)
    requires Inv(w) && Enabled(w, BeginEvent(l, eof))
    ensures Inv(Apply(w, BeginEvent(l, eof)))
    ensures Apply(w, BeginEvent(l, eof)).loops[l].phase.Handling?
  {
    var active := w.loops[l].phase.active;
    HeadUndestroyed(w, l);
    UndestroyedOwned(w, active[0].c);
    hide Views, OpenFdsDistinct, TasksPlaced, DispatchInv, NamesInv, GoneInv, Agreement, Owned, Callbacks, Active;
    hide Sound;
    var phase := Handling(active[0].c, Callbacks(active[0].revents), eof, active[1..]);
    ActiveTail(active, phase.todo, eof);
    HandlingSound(w, l, phase.todo, eof);
    LoopKeeps(w, l, w.loops[l].(phase := phase));
  }

  lemma QuietStepKeeps(w: World, a: Label)
    requires Inv(w) && Enabled(w, a)
    requires a.EndEvent? || a.SwapPending? || a.EndBatch?
    ensures Inv(Apply(w, a))
  {
    match a
    case EndEvent(l) =>
      LoopKeeps(w, l, w.loops[l].(phase := Dispatching(w.loops[l].phase.rest)));
    case SwapPending(l) =>
      var loop := Loop(Running, w.loops[l].Queue(), []);
      assert loop.Queue() == w.loops[l].Queue();
      LoopKeeps(w, l, loop);
    case EndBatch(l) =>
      LoopKeeps(w, l, w.loops[l].(phase := Polling));
  }

  lemma GoneAfterCheck(w: World, w': World, c: nat)
    requires Sound(w) && GoneInv(w) && c < |w.conns| && w.conns[c].established == 1
    requires || w' == w.(raw := w.raw + multiset{Send(c)})
             || w' == w.(stopping := w.stopping + multiset{c})
    ensures Sound(w') && GoneInv(w')
  {
  }

  /** A user thread has seen kConnected and is about to act on it. */
  lemma CheckKeeps(w: World, a: Label)
    requires Inv(w) && Enabled(w, a) && (a.CheckSend? || a.CheckShutdown?)
    ensures Inv(Apply(w, a))
  {
    hide Views, Agreement, GoneInv, NamesInv, DispatchInv, OpenFdsDistinct, TasksPlaced, ViewInv, Sound, LoopSound;
    var w' := Apply(w, a);
    CheckSeen(w, a.c);
    GoneAfterCheck(w, w', a.c);
    QuietKeeps(w, w');
    DispatchKeeps(w, w');
  }

  lemma CheckSeen(w: World, c: nat)
    requires Inv(w) && c < |w.conns| && w.conns[c].state == Connected
    ensures Sound(w) && w.conns[c].established == 1
  {
    hide Agreement, GoneInv, NamesInv, DispatchInv, OpenFdsDistinct, TasksPlaced, QueueInv, LoopSound;
    assert ViewInv(c, ViewOf(w, c));
  }

  lemma DestroyServerKeeps(w: World)
    requires Inv(w) && Enabled(w, DestroyServer)
    ensures Inv(Apply(w, DestroyServer))
  {
    QuietKeeps(w, Apply(w, DestroyServer));
  }

  // ---------------------------------------------------------------- what each effect does to its connection

  /** Posting a task of `c` stays inside the frame of `c`. */
  lemma PostFrame(w: World, l: nat, t: Task)
    requires Sound(w) && l < |w.loops| && t.c < |w.conns|
    ensures var r := Post(w, l, t);
            && Frame(w, r, t.c)
            && ViewOf(r, t.c) == ViewOf(w, t.c).(
                 io := ViewOf(w, t.c).io + (if l == w.conns[t.c].loop then [t] else []),
                 main := ViewOf(w, t.c).main + (if l == 0 then [t] else []))
            && (TasksPlaced(w) && (l == 0 || l == w.conns[t.c].loop) ==> TasksPlaced(r))
  {
    hide Frame, ViewOf, LoopSound, TasksPlaced, ConnName, Post;
    PostSame(w, l, t);
    PostView(w, l, t);
    if TasksPlaced(w) && (l == 0 || l == w.conns[t.c].loop) {
      PostPlaced(w, l, t);
    }
  }

  lemma PostSame(w: World, l: nat, t: Task)
    requires Sound(w) && l < |w.loops| && t.c < |w.conns|
    ensures Sound(Post(w, l, t)) && Frame(w, Post(w, l, t), t.c)
  {
    hide LoopSound, ConnName, Mine;
    PostQueue(w, l, t);
    forall i, d | 0 <= i < |w.loops| && 0 <= d < |w.conns| && d != t.c
      ensures Mine(Post(w, l, t).loops[i].Queue(), d) == Mine(w.loops[i].Queue(), d)
    {
      var q := Mine(w.loops[i].Queue(), d);
      assert q + [] == q;
    }
  }

  lemma PostView(w: World, l: nat, t: Task)
    requires Sound(w) && l < |w.loops| && t.c < |w.conns|
    ensures ViewOf(Post(w, l, t), t.c) == ViewOf(w, t.c).(
              io := ViewOf(w, t.c).io + (if l == w.conns[t.c].loop then [t] else []),
              main := ViewOf(w, t.c).main + (if l == 0 then [t] else []))
  {
    hide LoopSound, ConnName, Mine;
    PostQueue(w, l, t);
    assert Name(Post(w, l, t), t.c) == Name(w, t.c);
  }

  lemma PostPlaced(w: World, l: nat, t: Task)
    requires Sound(w) && l < |w.loops| && t.c < |w.conns| && TasksPlaced(w) && (l == 0 || l == w.conns[t.c].loop)
    ensures TasksPlaced(Post(w, l, t))
  {
    hide LoopSound;
    var r := Post(w, l, t);
    assert forall i, x | 0 <= i < |w.loops| && x in r.loops[i].Queue() ::
             x in w.loops[i].Queue() || (i == l && x == t);
  }

  /** The world after the handlers of `c` have set its fields and its interest. */
  function Changed(w: World, c: nat, k: Conn, poller: Poller<Slot, nat>, unlist: bool): World
    requires c < |w.conns|
  {
    w.(conns := w.conns[c := k], poller := poller,
       names := if unlist then w.names - {Name(w, c)} else w.names)
  }

  lemma ChangedFrame(w: World, c: nat, k: Conn, poller: Poller<Slot, nat>, unlist: bool)
    requires Sound(w) && c < |w.conns| && PollerFrame(w.poller, poller, c)
    requires k.loop == w.conns[c].loop && k.fd == w.conns[c].fd
    ensures var r := Changed(w, c, k, poller, unlist);
            && Sound(r) && Frame(w, r, c)
            && ViewOf(r, c) == ViewOf(w, c).(
                 k := k, chan := poller.chans[c], mapped := Mapped(poller, c),
                 listed := Listed(w, c) && !unlist)
            && (TasksPlaced(w) ==> TasksPlaced(r))
  {
    var r := Changed(w, c, k, poller, unlist);
    assert Name(r, c) == Name(w, c);
  }

  /** A change followed by a post is still within the frame. */
  lemma ChangedThenPost(w: World, c: nat, k: Conn, poller: Poller<Slot, nat>, unlist: bool, l: nat, t: Task)
    requires Sound(w) && c < |w.conns| && PollerFrame(w.poller, poller, c)
    requires k.loop == w.conns[c].loop && k.fd == w.conns[c].fd
    requires t.c == c && (l == 0 || l == k.loop)
    ensures var r := Post(Changed(w, c, k, poller, unlist), l, t);
            var v := ViewOf(w, c);
            && Sound(r) && Frame(w, r, c)
            && ViewOf(r, c) == View(
                 k, poller.chans[c], v.listed && !unlist, Mapped(poller, c),
                 v.io + (if l == k.loop then [t] else []), v.main + (if l == 0 then [t] else []))
            && (TasksPlaced(w) ==> TasksPlaced(r))
  {
    var w1 := Changed(w, c, k, poller, unlist);
    ChangedFrame(w, c, k, poller, unlist);
    PostFrame(w1, l, t);
    var r := Post(w1, l, t);
    assert forall i, d | 0 <= i < |w.loops| && 0 <= d < |w.conns| && d != c ::
             Mine(r.loops[i].Queue(), d) == Mine(w1.loops[i].Queue(), d) == Mine(w.loops[i].Queue(), d);
  }

  /** What a change of interest by the owner of the slot does to the poller. */
  lemma InterestPoller(p: Poller<Slot, nat>, c: nat, events: Mask)
    requires c in p.chans && Agreement(p) && p.faults == 0 && KeyFree(p, c)
    ensures var r := SetEvents(p, c, events);
            && Agreement(r) && r.faults == 0 && KeyFree(r, c) && PollerFrame(p, r, c) && Mapped(r, c)
            && r.chans[c].key == p.chans[c].key && r.chans[c].events == events
            && r.chans[c].index == (if p.chans[c].index == New || events != NO_EVENT then Added else New)
  {
    SetEventsAgrees(p, c, events);
  }

  lemma RemovePoller(p: Poller<Slot, nat>, c: nat)
    requires c in p.chans && Agreement(p) && p.faults == 0 && KeyFree(p, c)
    ensures var r := RemoveChannel(p, c);
            && Agreement(r) && r.faults == 0 && PollerFrame(p, r, c) && !Mapped(r, c)
            && r.chans[c] == p.chans[c].(index := New)
  {
    RemoveAgrees(p, c);
  }

  lemma DestroyPoller(p: Poller<Slot, nat>, c: nat)
    requires c in p.chans && Agreement(p) && p.faults == 0 && KeyFree(p, c)
    ensures var r := RemoveChannel(DisableAll(p, c), c);
            && Agreement(r) && r.faults == 0 && PollerFrame(p, r, c) && !Mapped(r, c)
            && r.chans[c].key == p.chans[c].key && r.chans[c].index == New
  {
    hide Agreement, KeyFree, SetEvents, RemoveChannel, Mapped;
    InterestPoller(p, c, NO_EVENT);
    RemovePoller(DisableAll(p, c), c);
  }

  // ---------------------------------------------------------------- steps of one connection

  /** A step of `c` that leaves everything global as it was, but for working off phases and checks. */
  ghost predicate Calm(w: World, w': World, c: nat)
    requires c < |w.conns| && w.conns[c].loop < |w.loops|
  {
    && |w'.conns| == |w.conns| && |w'.loops| == |w.loops|
    && (forall d | 0 <= d < |w.conns| && d != c :: w'.conns[d] == w.conns[d])
    && w'.conns[c].loop == w.conns[c].loop
    && w'.gone == w.gone
    && w'.raw <= w.raw && w'.stopping <= w.stopping
    && w.conns[c].established <= w'.conns[c].established <= 1
    && (w.gone ==> w'.loops[0] == w.loops[0])
    && (w'.conns[c].dropped > w.conns[c].dropped ==> w.gone)
    && (forall l | 0 <= l < |w.loops| :: IsSuffix(Active(w'.loops[l].phase), Active(w.loops[l].phase)))
    && (w'.conns[c].destroyed == w.conns[c].destroyed || Active(w.loops[w.conns[c].loop].phase) == [])
  }

  lemma CalmDispatch(w: World, w': World, c: nat)
    requires DispatchInv(w) && c < |w.conns| && w.conns[c].loop < |w.loops| && Calm(w, w', c)
    ensures DispatchInv(w')
  {
    forall l, d | 0 <= l < |w.loops| && d in Active(w'.loops[l].phase) && Undestroyed(w, l, d)
      ensures Undestroyed(w', l, d)
    {
      assert IsSuffix(Active(w'.loops[l].phase), Active(w.loops[l].phase));
    }
    DispatchKeeps(w, w');
  }

  lemma CalmGone(w: World, w': World, c: nat)
    requires Sound(w) && Sound(w') && GoneInv(w) && c < |w.conns| && Calm(w, w', c)
    ensures GoneInv(w')
  {
    forall d <- w'.stopping ensures d < |w'.conns| && w'.conns[d].established == 1 {
      assert d in w.stopping;
    }
    forall t <- w'.raw ensures t.Raw() && t.c < |w'.conns| && w'.conns[t.c].established == 1 {
      assert t in w.raw;
    }
    forall d | 0 <= d < |w'.conns| ensures w'.conns[d].dropped > 0 ==> w'.gone {
      assert w.conns[d] in w.conns;
    }
  }

  lemma CalmKeeps(w: World, w': World, c: nat)
    requires Inv(w) && Sound(w') && c < |w.conns| && Owned(w, c) && Frame(w, w', c) && Calm(w, w', c)
    requires ViewInv(c, ViewOf(w', c)) && TasksPlaced(w')
    requires Agreement(w'.poller) && w'.poller.faults == 0
    ensures Inv(w')
  {
    CalmDispatch(w, w', c);
    CalmGone(w, w', c);
    OwnedKeyFree(w, c);
    FrameKeeps(w, w', c);
  }

  // ---------------------------------------------------------------- the automaton of one connection

  lemma ViewEstablish(c: nat, v: View, v': View)
    requires ViewInv(c, v) && v.k.loop != 0 && v.io != [] && v.io[0] == Establish(c)
    requires v' == v.(
               k := v.k.(state := Connected, ups := v.k.ups + 1, established := v.k.established + 1),
               chan := Chan(v.chan.key, v.chan.events + READ_EVENT, Added), mapped := true, io := v.io[1..])
    ensures ViewInv(c, v')
  {
    assert v.io == [v.io[0]] + v'.io;
  }

  lemma ViewClose(c: nat, v: View, v': View)
    requires ViewInv(c, v) && v.k.established == 1 && v.k.destroyed == 0 && v.k.dropped == 0
    requires v'.chan.key == v.chan.key && v'.mapped
    requires v' == v.(
               k := v.k.(state := Disconnected, downs := v.k.downs + 1, closes := v.k.closes + 1,
                         erased := v.k.erased + if v.k.loop == 0 then 1 else 0),
               chan := v'.chan, mapped := v'.mapped,
               listed := v.listed && v.k.loop != 0,
               io := if v.k.loop == 0 then v.io + [Destroy(c)] else v.io,
               main := v.main + [if v.k.loop == 0 then Destroy(c) else Remove(c)])
    ensures ViewInv(c, v')
  {
  }

  lemma ViewErase(c: nat, v: View, v': View)
    requires ViewInv(c, v) && v.k.loop != 0 && v.k.dropped == 0 && v.main != [] && v.main[0] == Remove(c)
    requires v' == v.(k := v.k.(erased := v.k.erased + 1), listed := false,
                      io := v.io + [Destroy(c)], main := v.main[1..])
    ensures ViewInv(c, v')
  {
    assert v.main == [v.main[0]] + v'.main;
  }

  /** What connectDestroyed does to the fields of its connection. */
  function Destroyed(k: Conn): Conn {
    var k1 := k.(destroyed := k.destroyed + 1);
    if k1.state == Connected
    then k1.(state := Disconnected, downs := k1.downs + 1, forced := k1.forced + 1) else k1
  }

  /** connectDestroyed, either from the queue or directly out of ~TcpServer on the main loop. */
  lemma ViewDestroy(c: nat, v: View, v': View)
    requires v.io != [] && v.io[0] == Destroy(c) && ViewInv(c, v)
    requires v'.chan.key == v.chan.key && v'.chan.index == New && !v'.mapped
    requires v' == v.(
               k := Destroyed(v.k), chan := v'.chan, mapped := v'.mapped, io := v.io[1..],
               main := if v.k.loop == 0 then v.main[1..] else v.main)
    ensures ViewInv(c, v')
  {
    assert v.io == [v.io[0]] + v'.io;
  }

  lemma ViewPop(c: nat, v: View, v': View)
    requires ViewInv(c, v) && v.io != [] && (v.io[0].Raw() || v.io[0].Notify?)
    requires v' == v.(io := v.io[1..], main := if v.k.loop == 0 then v.main[1..] else v.main)
    ensures ViewInv(c, v') && v.k.established == 1 && (v.io[0].Raw() ==> v.k.destroyed == 0)
  {
    assert v.io == [v.io[0]] + v'.io;
  }

  lemma ViewPush(c: nat, v: View, t: Task, v': View)
    requires ViewInv(c, v) && v.k.established == 1
    requires t == Notify(c) || (t.c == c && t.Raw() && v.listed)
    requires v' == v.(io := v.io + [t], main := if v.k.loop == 0 then v.main + [t] else v.main)
    ensures ViewInv(c, v')
  {
    if t.Raw() {
      assert Destroy(c) !in multiset(v.io);
    }
  }

  /** A change of interest that keeps reading on while the connection is open. */
  lemma ViewInterest(c: nat, v: View, chan: Chan<Slot>)
    requires ViewInv(c, v) && v.k.established == 1 && v.k.destroyed == 0
    requires chan.key == v.chan.key && (v.k.closes == 0 ==> READ_EVENT <= chan.events && chan.index == Added)
    ensures ViewInv(c, v.(chan := chan, mapped := true))
  {
  }

  lemma ViewDrop(c: nat, v: View, v': View)
    requires ViewInv(c, v) && v.listed && v.main == []
    requires v' == v.(k := v.k.(erased := v.k.erased + 1, dropped := v.k.dropped + 1), listed := false,
                      io := v.io + [Destroy(c)],
                      main := if v.k.loop == 0 then v.main + [Destroy(c)] else v.main)
    ensures ViewInv(c, v')
  {
  }

  // ---------------------------------------------------------------- steps of one connection

  lemma InvView(w: World, c: nat)
    requires Inv(w) && c < |w.conns|
    ensures ViewInv(c, ViewOf(w, c)) && w.conns[c].established <= 1
  {
  }

  lemma UndestroyedReady(w: World, c: nat)
    requires Inv(w) && c < |w.conns| && w.conns[c].destroyed == 0
    ensures Owned(w, c) && KeyFree(w.poller, c) && ViewInv(c, ViewOf(w, c))
  {
    UndestroyedOwned(w, c);
    OwnedKeyFree(w, c);
  }

  /** The new fields of `c` break nothing outside its own view. */
  ghost predicate CalmFields(w: World, c: nat, k: Conn)
    requires c < |w.conns| && w.conns[c].loop < |w.loops|
  {
    && k.loop == w.conns[c].loop && k.fd == w.conns[c].fd
    && w.conns[c].established <= k.established <= 1
    && (k.dropped > w.conns[c].dropped ==> w.gone)
    && (k.destroyed == w.conns[c].destroyed || Active(w.loops[k.loop].phase) == [])
  }

  /** `b` is `w`, or `w` after its loop has taken a task of `c` off the batch. */
  ghost predicate Base(w: World, b: World, c: nat)
    requires Sound(w)
  {
    && Sound(b) && b == w.(loops := b.loops) && |b.loops| == |w.loops|
    && (forall l, d | 0 <= l < |w.loops| && 0 <= d < |w.conns| && d != c ::
          Mine(b.loops[l].Queue(), d) == Mine(w.loops[l].Queue(), d))
    && (forall l | 0 <= l < |w.loops| :: b.loops[l].phase == w.loops[l].phase)
    && TasksPlaced(b) && (w.gone ==> b.loops[0] == w.loops[0])
  }

  lemma BaseThenFrame(w: World, b: World, r: World, c: nat)
    requires Sound(w) && c < |w.conns| && Base(w, b, c) && Sound(r) && Frame(b, r, c)
    ensures Frame(w, r, c)
  {
    assert Name(b, c) == Name(w, c);
    forall l, d | 0 <= l < |w.loops| && 0 <= d < |w.conns| && d != c
      ensures Mine(r.loops[l].Queue(), d) == Mine(w.loops[l].Queue(), d)
    {
      assert Mine(b.loops[l].Queue(), d) == Mine(w.loops[l].Queue(), d);
    }
  }

  lemma ChangedKeeps(w: World, b: World, c: nat, k: Conn, p: Poller<Slot, nat>, unlist: bool)
    requires Inv(w) && c < |w.conns| && Owned(w, c) && Base(w, b, c) && CalmFields(w, c, k)
    requires PollerFrame(w.poller, p, c) && Agreement(p) && p.faults == 0
    requires ViewInv(c, ViewOf(b, c).(k := k, chan := p.chans[c], mapped := Mapped(p, c),
                                      listed := Listed(w, c) && !unlist))
    ensures Inv(Changed(b, c, k, p, unlist))
  {
    hide Agreement, Views, OpenFdsDistinct, TasksPlaced, DispatchInv, NamesInv, Owned, Frame, Mine;
    hide PollerFrame, ViewInv, GoneInv;
    assert Listed(b, c) == Listed(w, c);
    ChangedFrame(b, c, k, p, unlist);
    BaseThenFrame(w, b, Changed(b, c, k, p, unlist), c);
    CalmKeeps(w, Changed(b, c, k, p, unlist), c);
  }

  lemma ChangedPostKeeps(w: World, b: World, c: nat, k: Conn, p: Poller<Slot, nat>, unlist: bool, l: nat, t: Task)
    requires Inv(w) && c < |w.conns| && Owned(w, c) && Base(w, b, c) && CalmFields(w, c, k)
    requires PollerFrame(w.poller, p, c) && Agreement(p) && p.faults == 0
    requires t.c == c && (l == 0 || l == k.loop) && (l == 0 ==> !w.gone)
    requires var v := ViewOf(b, c);
             ViewInv(c, View(k, p.chans[c], v.listed && !unlist, Mapped(p, c),
                             v.io + (if l == k.loop then [t] else []), v.main + (if l == 0 then [t] else [])))
    ensures Inv(Post(Changed(b, c, k, p, unlist), l, t))
  {
    hide Agreement, Views, OpenFdsDistinct, TasksPlaced, DispatchInv, NamesInv, Owned, Frame, Mine;
    hide PollerFrame, ViewInv, GoneInv, ViewOf, Sound;
    ChangedThenPost(b, c, k, p, unlist, l, t);
    BaseThenFrame(w, b, Post(Changed(b, c, k, p, unlist), l, t), c);
    CalmKeeps(w, Post(Changed(b, c, k, p, unlist), l, t), c);
  }

  lemma HandleCloseShape(w: World, c: nat)
    requires Sound(w) && c < |w.conns|
    ensures var k := w.conns[c].(state := Disconnected, downs := w.conns[c].downs + 1, closes := w.conns[c].closes + 1);
            var p := SetEvents(w.poller, c, NO_EVENT);
            HandleClose(w, c) == (
              if k.loop == 0 then Post(Changed(w, c, k.(erased := k.erased + 1), p, true), 0, Destroy(c))
              else Post(Changed(w, c, k, p, false), 0, Remove(c)))
  {
    hide LoopSound, SetEvents, ConnName;
    var k := w.conns[c].(state := Disconnected, downs := w.conns[c].downs + 1, closes := w.conns[c].closes + 1);
    assert Name(SetConn(w, c, k).(poller := DisableAll(w.poller, c)), c) == Name(w, c);
    assert w.conns[c := k][c := k.(erased := k.erased + 1)] == w.conns[c := k.(erased := k.erased + 1)];
  }

  lemma NotDropped(w: World, c: nat)
    requires Inv(w) && !w.gone && c < |w.conns|
    ensures w.conns[c].dropped == 0
  {
    assert w.conns[c] in w.conns;
  }

  lemma HandleCloseKeeps(w: World, c: nat)
    requires Inv(w) && !w.gone && c < |w.conns|
    requires w.conns[c].established == 1 && w.conns[c].destroyed == 0
    ensures Inv(HandleClose(w, c))
  {
    hide Agreement, Views, OpenFdsDistinct, TasksPlaced, DispatchInv, NamesInv, Owned, Frame, Mine, PollerFrame;
    hide QueueInv, CountInv, StateInv, GoneInv, HandleClose, SetEvents, Mapped;
    NotDropped(w, c);
    UndestroyedReady(w, c);
    InterestPoller(w.poller, c, NO_EVENT);
    HandleCloseShape(w, c);
    var p := SetEvents(w.poller, c, NO_EVENT);
    var k := w.conns[c].(state := Disconnected, downs := w.conns[c].downs + 1, closes := w.conns[c].closes + 1);
    var v := ViewOf(w, c);
    if k.loop == 0 {
      var k' := k.(erased := k.erased + 1);
      ViewClose(c, v, View(k', p.chans[c], false, true, v.io + [Destroy(c)], v.main + [Destroy(c)]));
      ChangedPostKeeps(w, w, c, k', p, true, 0, Destroy(c));
    } else {
      assert v.io + [] == v.io;
      ViewClose(c, v, View(k, p.chans[c], v.listed, true, v.io, v.main + [Remove(c)]));
      ChangedPostKeeps(w, w, c, k, p, false, 0, Remove(c));
    }
  }

  lemma InterestKeeps(w: World, c: nat, events: Mask)
    requires Inv(w) && c < |w.conns| && w.conns[c].established == 1 && w.conns[c].destroyed == 0
    requires w.conns[c].closes == 0 ==> READ_EVENT <= events
    ensures Inv(w.(poller := SetEvents(w.poller, c, events)))
  {
    hide Agreement, Views, OpenFdsDistinct, TasksPlaced, DispatchInv, NamesInv, Owned, Frame, Mine, PollerFrame;
    hide QueueInv, CountInv, GoneInv;
    UndestroyedReady(w, c);
    InterestPoller(w.poller, c, events);
    var p := SetEvents(w.poller, c, events);
    assert w.(poller := p) == Changed(w, c, w.conns[c], p, false);
    ViewInterest(c, ViewOf(w, c), p.chans[c]);
    ChangedKeeps(w, w, c, w.conns[c], p, false);
  }

  lemma RawKeeps(w: World, raw: multiset<Task>)
    requires Inv(w) && raw <= w.raw
    ensures Inv(w.(raw := raw))
  {
    hide Agreement, Views, OpenFdsDistinct, TasksPlaced, NamesInv, LoopSound;
    QuietKeeps(w, w.(raw := raw));
    assert forall t <- raw :: t in w.raw;
  }

  /** A loop callback, or a raw task pushed in time, queues a task of a live connection. */
  lemma PushKeeps(w: World, c: nat, t: Task)
    requires Inv(w) && c < |w.conns| && w.conns[c].established == 1 && w.conns[c].destroyed == 0
    requires w.conns[c].loop == 0 ==> !w.gone
    requires t == Notify(c) || (t.c == c && t.Raw() && Listed(w, c))
    ensures Inv(Post(w, w.conns[c].loop, t))
  {
    hide Agreement, Views, OpenFdsDistinct, TasksPlaced, DispatchInv, NamesInv, Owned, Frame, Mine, QueueInv;
    hide CountInv, GoneInv;
    UndestroyedReady(w, c);
    var k := w.conns[c];
    assert Changed(w, c, k, w.poller, false) == w;
    var v := ViewOf(w, c);
    assert v.main + [] == v.main;
    ViewPush(c, v, t, v.(io := v.io + [t], main := v.main + if k.loop == 0 then [t] else []));
    ChangedPostKeeps(w, w, c, k, w.poller, false, k.loop, t);
  }

  lemma HandleWriteKeeps(w: World, c: nat, o: Outcome)
    requires Inv(w) && c < |w.conns| && w.conns[c].established == 1 && w.conns[c].destroyed == 0
    requires w.conns[c].loop == 0 ==> !w.gone
    ensures Inv(HandleWrite(w, c, o))
  {
    if w.poller.chans[c].IsWriting() && !o.Partial? {
      assert ViewInv(c, ViewOf(w, c));
      InterestKeeps(w, c, w.poller.chans[c].events - WRITE_EVENT);
      var w1 := w.(poller := DisableWriting(w.poller, c));
      if o.Told? {
        PushKeeps(w1, c, Notify(c));
      }
    }
  }

  lemma SendInLoopKeeps(w: World, c: nat, o: Outcome)
    requires Inv(w) && c < |w.conns| && w.conns[c].established == 1 && w.conns[c].destroyed == 0
    requires w.conns[c].loop == 0 ==> !w.gone
    ensures Inv(SendInLoop(w, c, o))
  {
    assert ViewInv(c, ViewOf(w, c));
    if w.conns[c].state != Disconnecting {
      if o.Partial? {
        InterestKeeps(w, c, w.poller.chans[c].events + WRITE_EVENT);
      } else if o.Told? {
        PushKeeps(w, c, Notify(c));
      }
    }
  }

  lemma RunCallbackKeeps(w: World, l: nat, o: Outcome)
    requires Inv(w) && Enabled(w, RunCallback(l, o))
    ensures Inv(Apply(w, RunCallback(l, o)))
  {
    var ph := w.loops[l].phase;
    var ph' := ph.(todo := ph.todo[1..]);
    assert Active(ph') == Active(ph) && Active(ph)[0] == ph.c;
    LoopKeeps(w, l, w.loops[l].(phase := ph'));
    var w1 := SetPhase(w, l, ph');
    assert Undestroyed(w, l, ph.c);
    if Closing(ph.todo[0], ph.eof) {
      HandleCloseKeeps(w1, ph.c);
    } else if ph.todo[0].WriteCallback? {
      HandleWriteKeeps(w1, ph.c, o);
    }
  }

  // ---------------------------------------------------------------- running a queued task

  lemma TakeBase(w: World, l: nat)
    requires Sound(w) && TasksPlaced(w) && l < |w.loops| && w.loops[l].batch != [] && (l == 0 ==> !w.gone)
    ensures var t := w.loops[l].batch[0];
            var b := TakeTask(w, l);
            var v := ViewOf(w, t.c);
            && Base(w, b, t.c)
            && (l == w.conns[t.c].loop ==> v.io != [] && v.io[0] == t)
            && (l == 0 ==> v.main != [] && v.main[0] == t)
            && ViewOf(b, t.c) == v.(
                 io := if l == w.conns[t.c].loop then v.io[1..] else v.io,
                 main := if l == 0 then v.main[1..] else v.main)
  {
    var t := w.loops[l].batch[0];
    var b := TakeTask(w, l);
    TakeQueue(w, l);
    assert w.loops[l].Queue()[0] == t;
    assert Listed(b, t.c) == Listed(w, t.c);
    hide LoopSound;
    forall i | 0 <= i < |b.loops|
      ensures forall x <- b.loops[i].Queue() :: x.c < |b.conns| && (i == 0 || i == b.conns[x.c].loop)
    {
      assert forall x <- b.loops[i].Queue() :: x in w.loops[i].Queue();
    }
  }

  /** What the invariant says about a task that is about to run. */
  lemma HeadFacts(w: World, l: nat)
    requires Inv(w) && l < |w.loops| && w.loops[l].batch != []
    ensures var t := w.loops[l].batch[0];
            var k := w.conns[t.c];
            && t.c < |w.conns| && ViewInv(t.c, ViewOf(w, t.c))
            && (t.Remove? ==> l == 0 && k.loop != 0)
            && (!t.Remove? ==> l == k.loop)
            && (t.Establish? ==> l != 0 && k.established == 0 && k.destroyed == 0)
            && (t.Raw() ==> k.established == 1 && k.destroyed == 0)
            && (t.Notify? ==> k.established == 1)
            && (t.Destroy? ==> k.established == 1)
  {
    hide Inv, ViewInv, LoopSound;
    var t := w.loops[l].batch[0];
    HeadPlaced(w, l);
    InvView(w, t.c);
    HeadView(t, l, ViewOf(w, t.c));
  }

  lemma HeadPlaced(w: World, l: nat)
    requires Inv(w) && l < |w.loops| && w.loops[l].batch != []
    ensures var t := w.loops[l].batch[0];
            && Sound(w) && t.c < |w.conns| && (l == 0 || l == w.conns[t.c].loop)
            && (l == w.conns[t.c].loop ==> ViewOf(w, t.c).io != [] && ViewOf(w, t.c).io[0] == t)
            && (l == 0 ==> ViewOf(w, t.c).main != [] && ViewOf(w, t.c).main[0] == t)
  {
    hide Agreement, Views, OpenFdsDistinct, DispatchInv, NamesInv, GoneInv, LoopSound;
    var t := w.loops[l].batch[0];
    assert w.loops[l].Queue()[0] == t;
    assert t in w.loops[l].Queue();
    assert Mine(w.loops[l].Queue(), t.c)[0] == t;
  }

  lemma HeadView(t: Task, l: nat, v: View)
    requires ViewInv(t.c, v) && (l == 0 || l == v.k.loop)
    requires l == v.k.loop ==> v.io != [] && v.io[0] == t
    requires l == 0 ==> v.main != [] && v.main[0] == t
    ensures t.Remove? ==> l == 0 && v.k.loop != 0
    ensures !t.Remove? ==> l == v.k.loop
    ensures t.Establish? ==> l != 0 && v.k.established == 0 && v.k.destroyed == 0
    ensures t.Raw() ==> v.k.established == 1 && v.k.destroyed == 0
    ensures t.Notify? || t.Destroy? ==> v.k.established == 1
  {
  }

  lemma HeadOwned(w: World, l: nat)
    requires Inv(w) && l < |w.loops| && w.loops[l].batch != [] && !w.loops[l].batch[0].Raw()
    ensures var c := w.loops[l].batch[0].c; c < |w.conns| && Owned(w, c) && KeyFree(w.poller, c)
  {
    var t := w.loops[l].batch[0];
    assert t in w.loops[l].Queue() && Owns(t, t.c);
    OwnedKeyFree(w, t.c);
  }

  /** Establishment in the view of the connection whose task is at the head of the batch. */
  lemma EstablishView(w: World, l: nat, c: nat, k: Conn, chan: Chan<Slot>)
    requires Inv(w) && Moves(w, l) && w.loops[l].batch != [] && w.loops[l].batch[0] == Establish(c)
    requires c < |w.conns| && w.conns[c].loop == l
    requires chan == Chan(w.poller.chans[c].key, w.poller.chans[c].events + READ_EVENT, Added)
    requires k == w.conns[c].(state := Connected, ups := w.conns[c].ups + 1, established := w.conns[c].established + 1)
    ensures ViewInv(c, ViewOf(TakeTask(w, l), c).(k := k, chan := chan, mapped := true, listed := Listed(w, c)))
  {
    hide Agreement, Views, OpenFdsDistinct, DispatchInv, NamesInv, GoneInv, Mine, QueueInv, CountInv, StateInv;
    hide Base, TasksPlaced;
    TakeBase(w, l);
    HeadFacts(w, l);
    ViewEstablish(c, ViewOf(w, c),
                  ViewOf(TakeTask(w, l), c).(k := k, chan := chan, mapped := true, listed := Listed(w, c)));
  }

  lemma EstablishShape(w: World, c: nat)
    requires Sound(w) && c < |w.conns|
    ensures var k := w.conns[c].(state := Connected, ups := w.conns[c].ups + 1,
                                 established := w.conns[c].established + 1);
            ConnectEstablished(w, c) == Changed(w, c, k, EnableReading(w.poller, c), false)
  {
  }

  lemma RunEstablishKeeps(w: World, l: nat)
    requires Inv(w) && Moves(w, l) && w.loops[l].batch != [] && w.loops[l].batch[0].Establish?
    ensures Inv(ConnectEstablished(TakeTask(w, l), w.loops[l].batch[0].c))
  {
    hide Agreement, Views, OpenFdsDistinct, DispatchInv, NamesInv, Owned, Frame, Mine, PollerFrame, GoneInv;
    hide SetEvents, QueueInv, CountInv, Base, KeyFree, TasksPlaced;
    var c := w.loops[l].batch[0].c;
    TakeBase(w, l);
    HeadFacts(w, l);
    HeadOwned(w, l);
    hide LoopSound, ViewInv, ViewOf, Mapped, ConnectEstablished, Listed;
    var b := TakeTask(w, l);
    var p := EnableReading(w.poller, c);
    InterestPoller(w.poller, c, w.poller.chans[c].events + READ_EVENT);
    var k := w.conns[c].(state := Connected, ups := w.conns[c].ups + 1, established := w.conns[c].established + 1);
    EstablishView(w, l, c, k, p.chans[c]);
    ChangedKeeps(w, b, c, k, p, false);
    EstablishShape(b, c);
  }

  lemma RemoveShape(w: World, c: nat)
    requires Sound(w) && c < |w.conns|
    ensures var k := w.conns[c].(erased := w.conns[c].erased + 1);
            RemoveInLoop(w, c) == Post(Changed(w, c, k, w.poller, true), k.loop, Destroy(c))
  {
  }

  /** Erasure in the view of the connection whose removal is at the head of the batch. */
  lemma RemoveView(w: World, l: nat, c: nat, k: Conn)
    requires Inv(w) && Moves(w, l) && w.loops[l].batch != [] && w.loops[l].batch[0] == Remove(c)
    requires c < |w.conns| && k == w.conns[c].(erased := w.conns[c].erased + 1)
    ensures var v := ViewOf(TakeTask(w, l), c);
            && ViewInv(c, View(k, w.poller.chans[c], false, Mapped(w.poller, c), v.io + [Destroy(c)], v.main))
            && l == 0 && k.loop != 0 && w.conns[c].established <= 1
  {
    hide Agreement, Views, OpenFdsDistinct, DispatchInv, NamesInv, GoneInv, Mine, QueueInv, CountInv, StateInv;
    hide Base, TasksPlaced;
    TakeBase(w, l);
    HeadFacts(w, l);
    NotDropped(w, c);
    InvView(w, c);
    var v := ViewOf(TakeTask(w, l), c);
    ViewErase(c, ViewOf(w, c),
              View(k, w.poller.chans[c], false, Mapped(w.poller, c), v.io + [Destroy(c)], v.main));
  }

  lemma RunRemoveKeeps(w: World, l: nat)
    requires Inv(w) && Moves(w, l) && w.loops[l].batch != [] && w.loops[l].batch[0].Remove?
    ensures Inv(RemoveInLoop(TakeTask(w, l), w.loops[l].batch[0].c))
  {
    hide Agreement, Views, OpenFdsDistinct, DispatchInv, NamesInv, Owned, Frame, Mine, PollerFrame, GoneInv;
    hide ViewInv, ViewOf, Base, KeyFree, TasksPlaced, RemoveInLoop, Mapped;
    var c := w.loops[l].batch[0].c;
    TakeBase(w, l);
    HeadOwned(w, l);
    var b := TakeTask(w, l);
    RemoveShape(b, c);
    var k := w.conns[c].(erased := w.conns[c].erased + 1);
    RemoveView(w, l, c, k);
    SamePoller(w.poller, c);
    assert ViewOf(b, c).main + [] == ViewOf(b, c).main;
    ChangedPostKeeps(w, b, c, k, w.poller, true, k.loop, Destroy(c));
  }

  lemma SamePoller(p: Poller<Slot, nat>, c: nat)
    requires c in p.chans
    ensures PollerFrame(p, p, c)
  {
  }

  /** connectDestroyed, whatever the state: the channel leaves the poller for good. */
  lemma DestroyShape(w: World, c: nat)
    requires Sound(w) && c < |w.conns| && Agreement(w.poller) && w.poller.faults == 0 && KeyFree(w.poller, c)
    ensures var p := ConnectDestroyed(w, c).poller;
            && ConnectDestroyed(w, c) == Changed(w, c, Destroyed(w.conns[c]), p, false)
            && Agreement(p) && p.faults == 0 && PollerFrame(w.poller, p, c) && !Mapped(p, c)
            && p.chans[c].key == w.poller.chans[c].key && p.chans[c].index == New
  {
    hide Agreement, PollerFrame, SetEvents, RemoveChannel;
    DestroyPoller(w.poller, c);
    RemovePoller(w.poller, c);
  }

  lemma RunDestroyKeeps(w: World, l: nat)
    requires Inv(w) && Moves(w, l) && w.loops[l].phase.Running?
    requires w.loops[l].batch != [] && w.loops[l].batch[0].Destroy?
    ensures Inv(ConnectDestroyed(TakeTask(w, l), w.loops[l].batch[0].c))
  {
    hide Agreement, Views, OpenFdsDistinct, DispatchInv, NamesInv, Owned, Frame, Mine, PollerFrame, GoneInv;
    hide SetEvents, RemoveChannel, QueueInv, CountInv, StateInv, KeyFree, TasksPlaced, ConnectDestroyed;
    var c := w.loops[l].batch[0].c;
    TakeBase(w, l);
    HeadFacts(w, l);
    HeadOwned(w, l);
    var b := TakeTask(w, l);
    DestroyShape(b, c);
    var r := ConnectDestroyed(b, c);
    var k' := Destroyed(w.conns[c]);
    ViewDestroy(c, ViewOf(w, c), ViewOf(b, c).(k := k', chan := r.poller.chans[c], mapped := false));
    ChangedKeeps(w, b, c, k', r.poller, false);
  }

  /** Popping a callback or a send, before its effect. */
  lemma PopKeeps(w: World, l: nat)
    requires Inv(w) && Moves(w, l) && w.loops[l].batch != []
    requires w.loops[l].batch[0].Raw() || w.loops[l].batch[0].Notify?
    ensures Inv(TakeTask(w, l))
  {
    hide Agreement, Views, OpenFdsDistinct, DispatchInv, NamesInv, Owned, Frame, Mine, PollerFrame, GoneInv;
    hide QueueInv, CountInv, StateInv, KeyFree, TasksPlaced;
    var c := w.loops[l].batch[0].c;
    TakeBase(w, l);
    HeadFacts(w, l);
    if w.loops[l].batch[0].Raw() {
      UndestroyedReady(w, c);
    } else {
      HeadOwned(w, l);
    }
    var b := TakeTask(w, l);
    ViewPop(c, ViewOf(w, c), ViewOf(b, c));
    SamePoller(w.poller, c);
    ChangedKeeps(w, b, c, w.conns[c], w.poller, false);
    assert Changed(b, c, w.conns[c], w.poller, false) == b;
  }

  lemma RunTaskKeeps(w: World, l: nat, o: Outcome)
    requires Inv(w) && Enabled(w, RunTask(l, o))
    ensures Inv(Apply(w, RunTask(l, o)))
  {
    hide Agreement, Views, OpenFdsDistinct, DispatchInv, NamesInv, TasksPlaced, GoneInv, ViewInv;
    var t := w.loops[l].batch[0];
    match t
    case Establish(c) => RunEstablishKeeps(w, l);
    case Remove(c) => RunRemoveKeeps(w, l);
    case Destroy(c) => RunDestroyKeeps(w, l);
    case Notify(_) => PopKeeps(w, l);
    case HalfClose(_) => PopKeeps(w, l);
    case Send(c) =>
      PopKeeps(w, l);
      HeadFacts(w, l);
      SendInLoopKeeps(TakeTask(w, l), c, o);
  }

  // ---------------------------------------------------------------- user threads

  /** The push of a raw task comes in time when the connection is still in connectionMap_. */
  predicate Timely(w: World, c: nat)
    requires c < |w.conns|
  {
    Listed(w, c) && (w.conns[c].loop == 0 ==> !w.gone)
  }

  lemma PushedAlive(w: World, t: Task)
    requires Inv(w) && t in w.raw && t.c < |w.conns| && Listed(w, t.c)
    ensures Sound(w) && t.Raw() && w.conns[t.c].established == 1 && w.conns[t.c].destroyed == 0
  {
    hide Agreement, Views, OpenFdsDistinct, DispatchInv, NamesInv, TasksPlaced, QueueInv, Mine, LoopSound;
    InvView(w, t.c);
  }

  lemma SoundRaw(w: World, raw: multiset<Task>)
    requires Sound(w)
    ensures Sound(w.(raw := raw))
  {
  }

  lemma PushRawKeeps(w: World, t: Task)
    requires Inv(w) && Enabled(w, PushRaw(t)) && Timely(w, t.c)
    ensures Inv(Apply(w, PushRaw(t)))
  {
    hide Inv, Sound, Mine, ConnName;
    PushedAlive(w, t);
    var w1 := w.(raw := w.raw - multiset{t});
    RawKeeps(w, w1.raw);
    SoundRaw(w, w1.raw);
    assert Listed(w1, t.c) == Listed(w, t.c);
    PushKeeps(w1, t.c, t);
  }

  lemma StateChangeAt(w: World, c: nat, d: nat)
    requires Inv(w) && c < |w.conns| && w.conns[c].established == 1 && d < |w.conns|
    ensures var w' := SetConn(w, c, w.conns[c].(state := Disconnecting));
            Sound(w') && ViewInv(d, ViewOf(w', d)) && (Owned(w', d) <==> Owned(w, d))
  {
    hide Agreement, Views, ViewInv, OpenFdsDistinct, DispatchInv, NamesInv, GoneInv, TasksPlaced, Mine;
    var w' := SetConn(w, c, w.conns[c].(state := Disconnecting));
    var v := ViewOf(w, d);
    InvView(w, d);
    assert ViewOf(w', d) == v.(k := w'.conns[d]);
    if c == d {
      StateChangeView(d, v);
    }
  }

  lemma StateChangeViews(w: World, c: nat)
    requires Inv(w) && c < |w.conns| && w.conns[c].established == 1
    ensures var w' := SetConn(w, c, w.conns[c].(state := Disconnecting));
            Sound(w') && Views(w') && OpenFdsDistinct(w') && TasksPlaced(w')
  {
    hide Agreement, DispatchInv, NamesInv, GoneInv, ViewInv, ViewOf, Owned;
    var w' := SetConn(w, c, w.conns[c].(state := Disconnecting));
    forall d | 0 <= d < |w.conns|
      ensures Sound(w') && ViewInv(d, ViewOf(w', d)) && (Owned(w', d) <==> Owned(w, d))
    {
      StateChangeAt(w, c, d);
    }
  }

  lemma StateChangeView(c: nat, v: View)
    requires ViewInv(c, v) && v.k.established == 1
    ensures ViewInv(c, v.(k := v.k.(state := Disconnecting)))
  {
  }

  /** TcpConnection::shutdown stores kDisconnecting whatever has happened since its check. */
  lemma SetDisconnectingKeeps(w: World, c: nat, local: bool)
    requires Inv(w) && Enabled(w, SetDisconnecting(c, local))
    ensures Inv(Apply(w, SetDisconnecting(c, local)))
  {
    hide Agreement, Views, OpenFdsDistinct, TasksPlaced, LoopSound, ConnName, Mine, DispatchInv, GoneInv, NamesInv;
    StoppingSeen(w, c);
    var raw := if local then w.raw else w.raw + multiset{HalfClose(c)};
    var w1 := w.(stopping := w.stopping - multiset{c}, raw := raw);
    StoppingKeeps(w, c, w1.stopping, raw);
    StateChangeViews(w1, c);
    var w' := Apply(w, SetDisconnecting(c, local));
    assert w' == SetConn(w1, c, w1.conns[c].(state := Disconnecting));
    CalmDispatch(w1, w', c);
    CalmGone(w1, w', c);
    NamesKept(w1, w');
  }

  lemma StoppingSeen(w: World, c: nat)
    requires Inv(w) && c in w.stopping
    ensures c < |w.conns| && w.conns[c].established == 1
  {
    hide Agreement, Views, OpenFdsDistinct, TasksPlaced, LoopSound, DispatchInv, NamesInv;
  }

  lemma NamesKept(w: World, w': World)
    requires NamesInv(w) && w'.names == w.names && |w'.conns| == |w.conns|
    requires w'.server == w.server && w'.addr == w.addr
    ensures NamesInv(w')
  {
    assert forall n <- w'.names :: Name(w', w'.names[n]) == Name(w, w.names[n]);
  }

  lemma StoppingKeeps(w: World, c: nat, stopping: multiset<nat>, raw: multiset<Task>)
    requires Inv(w) && c < |w.conns| && w.conns[c].established == 1
    requires stopping <= w.stopping && raw <= w.raw + multiset{HalfClose(c)}
    ensures Inv(w.(stopping := stopping, raw := raw))
  {
    hide Agreement, Views, OpenFdsDistinct, TasksPlaced, NamesInv, LoopSound;
    QuietKeeps(w, w.(stopping := stopping, raw := raw));
    assert forall d <- stopping :: d in w.stopping;
    assert forall t <- raw :: t in w.raw || t == HalfClose(c);
  }

  // ---------------------------------------------------------------- the server's destructor

  lemma DropIo(w: World, c: nat)
    requires Inv(w) && Enabled(w, DropConnection(c)) && w.conns[c].loop != 0
    ensures Inv(Drop(w, c))
  {
    hide Agreement, Views, OpenFdsDistinct, DispatchInv, NamesInv, TasksPlaced, Frame, PollerFrame, Drop, Owned;
    hide QueueInv, CountInv, StateInv, LoopSound, ConnName, KeyFree, Mapped, RemoveChannel, SetEvents;
    ListedOwned(w, c);
    OwnedKeyFree(w, c);
    var k := w.conns[c].(erased := w.conns[c].erased + 1, dropped := w.conns[c].dropped + 1);
    var v := ViewOf(w, c);
    InvView(w, c);
    GoneMain(w, c);
    assert v.main + [] == v.main;
    SamePoller(w.poller, c);
    ViewDrop(c, v, View(k, v.chan, false, v.mapped, v.io + [Destroy(c)], v.main));
    ChangedPostKeeps(w, w, c, k, w.poller, true, k.loop, Destroy(c));
    DropIoShape(w, c);
  }

  lemma GoneMain(w: World, c: nat)
    requires Inv(w) && w.gone && c < |w.conns|
    ensures ViewOf(w, c).main == []
  {
    hide Agreement, Views, OpenFdsDistinct, DispatchInv, NamesInv, TasksPlaced, LoopSound, ConnName;
  }

  lemma DropIoShape(w: World, c: nat)
    requires Sound(w) && c < |w.conns| && w.conns[c].loop != 0
    ensures var k := w.conns[c].(erased := w.conns[c].erased + 1, dropped := w.conns[c].dropped + 1);
            Drop(w, c) == Post(Changed(w, c, k, w.poller, true), k.loop, Destroy(c))
  {
    hide LoopSound, ConnName;
  }

  lemma DropMainShape(w: World, c: nat)
    requires Sound(w) && c < |w.conns| && w.conns[c].loop == 0
    requires Agreement(w.poller) && w.poller.faults == 0 && KeyFree(w.poller, c)
    ensures var k := w.conns[c].(erased := w.conns[c].erased + 1, dropped := w.conns[c].dropped + 1);
            var p := Drop(w, c).poller;
            && Drop(w, c) == Changed(w, c, Destroyed(k), p, true)
            && Agreement(p) && p.faults == 0 && PollerFrame(w.poller, p, c) && !Mapped(p, c)
            && p.chans[c].key == w.poller.chans[c].key && p.chans[c].index == New
  {
    hide Agreement, PollerFrame, SetEvents, RemoveChannel, ConnectDestroyed, Mapped, Name;
    var k := w.conns[c].(erased := w.conns[c].erased + 1, dropped := w.conns[c].dropped + 1);
    var w1 := Changed(w, c, k, w.poller, true);
    DestroyShape(w1, c);
    assert w.conns[c := k][c := Destroyed(k)] == w.conns[c := Destroyed(k)];
  }

  lemma DropMainView(c: nat, v: View, v': View)
    requires ViewInv(c, v) && v.listed && v.k.loop == 0 && v.io == [] && v.main == []
    requires v'.chan.key == v.chan.key && v'.chan.index == New && !v'.mapped
    requires v' == v.(
               k := Destroyed(v.k.(erased := v.k.erased + 1, dropped := v.k.dropped + 1)),
               chan := v'.chan, mapped := false, listed := false)
    ensures ViewInv(c, v')
  {
  }

  /** On the main thread ~TcpServer destroys its connection at once: queue and pop in one step. */
  lemma DropMain(w: World, c: nat)
    requires Inv(w) && Enabled(w, DropConnection(c)) && w.conns[c].loop == 0
    ensures Inv(Drop(w, c))
  {
    hide Agreement, Views, OpenFdsDistinct, NamesInv, TasksPlaced, Frame, PollerFrame, GoneInv, DispatchInv;
    hide QueueInv, CountInv, StateInv, Drop, Owned, Mine, KeyFree, Mapped;
    ListedOwned(w, c);
    OwnedKeyFree(w, c);
    InvView(w, c);
    MainEmpty(w, c);
    DropMainShape(w, c);
    var p := Drop(w, c).poller;
    var k := Destroyed(w.conns[c].(erased := w.conns[c].erased + 1, dropped := w.conns[c].dropped + 1));
    var v := ViewOf(w, c);
    DropMainView(c, v, v.(k := k, chan := p.chans[c], mapped := false, listed := false));
    ChangedKeeps(w, w, c, k, p, true);
  }

  lemma ListedOwned(w: World, c: nat)
    requires Listed(w, c)
    ensures Owned(w, c)
  {
  }

  lemma MainEmpty(w: World, c: nat)
    requires Inv(w) && w.gone && c < |w.conns| && w.conns[c].loop == 0
    ensures ViewOf(w, c).io == [] && ViewOf(w, c).main == []
    ensures Active(w.loops[0].phase) == []
  {
  }

  // ---------------------------------------------------------------- a new connection

  /** An fd that no owned connection has is neither in channels_ nor in the kernel's set. */
  lemma SlotUnused(w: World, fd: nat, io: nat)
    requires Inv(w) && Enabled(w, Accept(fd, io))
    ensures Slot(io, fd) !in w.poller.channels && Slot(io, fd) !in w.poller.kernel
  {
    hide Views, OpenFdsDistinct, TasksPlaced, DispatchInv, NamesInv, GoneInv, LoopSound, QueueInv, CountInv;
    var key := Slot(io, fd);
    assert key in w.poller.kernel ==> Registered(w.poller, w.poller.kernel[key].chan);
    if key in w.poller.channels {
      var d := w.poller.channels[key];
      assert Mapped(w.poller, d);
      MappedOwned(w, d);
      InvView(w, d);
      assert false;
    }
  }

  lemma CreatedPoller(w: World, fd: nat, io: nat)
    requires Inv(w) && Enabled(w, Accept(fd, io))
    ensures var p := Created(w, fd, io).poller;
            Agreement(p) && KeyFree(p, |w.conns|) && !Mapped(p, |w.conns|)
  {
    hide Views, OpenFdsDistinct, TasksPlaced, DispatchInv, NamesInv, GoneInv, LoopSound, ConnName, Enabled;
    var c := |w.conns|;
    var p := Created(w, fd, io).poller;
    SlotUnused(w, fd, io);
    assert forall d <- w.poller.chans :: p.chans[d] == w.poller.chans[d];
  }

  /** Insertion into connectionMap_ never overwrites an entry. */
  lemma FreshName(w: World, d: nat)
    requires NamesInv(w) && w.addr.Valid() && |w.conns| < INT_MAX && d < |w.conns|
    ensures Name(w, d) != Name(w, |w.conns|) && Name(w, |w.conns|) !in w.names
  {
    NamesDistinct(w.server, w.addr, d + 1, |w.conns| + 1);
    if Name(w, |w.conns|) in w.names {
      var e := w.names[Name(w, |w.conns|)];
      NamesDistinct(w.server, w.addr, e + 1, |w.conns| + 1);
    }
  }

  lemma CreatedOther(w: World, fd: nat, io: nat, d: nat)
    requires Inv(w) && Enabled(w, Accept(fd, io)) && d < |w.conns|
    ensures var w1 := Created(w, fd, io);
            && Sound(w1) && ViewInv(d, ViewOf(w1, d)) && w1.poller.chans[d] == w.poller.chans[d]
            && (Owned(w1, d) <==> Owned(w, d)) && (Mapped(w1.poller, d) <==> Mapped(w.poller, d))
  {
    hide Agreement, Views, OpenFdsDistinct, TasksPlaced, DispatchInv, ViewInv, GoneInv, ConnName, LoopSound;
    var w1 := Created(w, fd, io);
    NewConnectionShape(w, fd, io);
    FreshName(w, d);
    InvView(w, d);
    assert Name(w1, d) == Name(w, d) && Listed(w1, d) == Listed(w, d);
    assert w1.conns[d] == w.conns[d];
    assert ViewOf(w1, d) == ViewOf(w, d);
  }

  lemma CreatedNew(w: World, fd: nat, io: nat)
    requires Inv(w) && Enabled(w, Accept(fd, io))
    ensures var w1 := Created(w, fd, io);
            var c := |w.conns|;
            && Sound(w1) && Listed(w1, c)
            && ViewOf(w1, c) == View(w1.conns[c], w1.poller.chans[c], true, false, [], [])
  {
    hide Agreement, Views, OpenFdsDistinct, DispatchInv, ViewInv, GoneInv, ConnName, Mapped;
    var w1 := Created(w, fd, io);
    CreatedPoller(w, fd, io);
    assert LoopSound(w.loops[io], |w.conns|) && LoopSound(w.loops[0], |w.conns|);
    MineNone(w.loops[io].Queue(), |w.conns|);
    MineNone(w.loops[0].Queue(), |w.conns|);
  }

  lemma CreatedOthers(w: World, fd: nat, io: nat)
    requires Inv(w) && Enabled(w, Accept(fd, io))
    ensures var w1 := Created(w, fd, io);
            OthersInv(w1, |w.conns|) && DispatchInv(w1) && GoneInv(w1)
  {
    hide Agreement, Views, ViewInv, ConnName, Owned, Mapped, ViewOf;
    var w1 := Created(w, fd, io);
    var c := |w.conns|;
    CreatedPoller(w, fd, io);
    CreatedNew(w, fd, io);
    forall d | 0 <= d < |w.conns|
      ensures Sound(w1) && ViewInv(d, ViewOf(w1, d)) && w1.poller.chans[d] == w.poller.chans[d]
      ensures (Owned(w1, d) <==> Owned(w, d)) && (Mapped(w1.poller, d) <==> Mapped(w.poller, d))
    {
      CreatedOther(w, fd, io, d);
    }
    assert SlotFree(w1, c) by { KeyFreeSlot(w1, c); }
    assert forall n <- w.names :: Name(w1, w.names[n]) == Name(w, w.names[n]);
  }

  lemma KeyFreeSlot(w: World, c: nat)
    requires Sound(w) && c < |w.conns| && KeyFree(w.poller, c)
    ensures SlotFree(w, c)
  {
  }

  lemma CreatedCalm(w: World, fd: nat, io: nat)
    requires Inv(w) && Enabled(w, Accept(fd, io))
    ensures var w1 := Created(w, fd, io);
            var c := |w.conns|;
            && OthersInv(w1, c) && DispatchInv(w1) && GoneInv(w1) && Owned(w1, c)
            && ViewOf(w1, c) == View(w1.conns[c], w1.poller.chans[c], true, false, [], [])
            && Agreement(w1.poller) && KeyFree(w1.poller, c)
  {
    hide Agreement, OthersInv, DispatchInv, GoneInv;
    CreatedPoller(w, fd, io);
    CreatedOthers(w, fd, io);
    CreatedNew(w, fd, io);
    ListedOwned(Created(w, fd, io), |w.conns|);
  }

  lemma NewConnectionShape(w: World, fd: nat, io: nat)
    requires Sound(w) && io < |w.loops|
    ensures var w1 := Created(w, fd, io);
            var c := |w.conns|;
            var k := w1.conns[c].(state := Connected, ups := 1, established := 1);
            && Sound(w1)
            && NewConnection(w, fd, io) == (
                 if io == 0 then Changed(w1, c, k, SetEvents(w1.poller, c, READ_EVENT), false)
                 else Post(w1, io, Establish(c)))
  {
    hide SetEvents, Name;
    var w1 := Created(w, fd, io);
    assert w1.poller.chans[|w.conns|].events + READ_EVENT == READ_EVENT;
  }

  lemma ViewUpAtOnce(c: nat, k: Conn, chan: Chan<Slot>)
    requires k == Conn(0, k.fd, Connected, 1, 0, 1, 0, 0, 0, 0, 0) && chan == Chan(Slot(0, k.fd), READ_EVENT, Added)
    ensures ViewInv(c, View(k, chan, true, true, [], []))
  {
  }

  lemma ViewUpLater(c: nat, k: Conn, chan: Chan<Slot>)
    requires k == Conn(k.loop, k.fd, Connecting, 0, 0, 0, 0, 0, 0, 0, 0) && k.loop != 0
    requires chan == Chan(Slot(k.loop, k.fd), NO_EVENT, New)
    ensures ViewInv(c, View(k, chan, true, false, [Establish(c)], []))
  {
  }

  lemma FinishNew(w: World, r: World, c: nat)
    requires OthersInv(w, c) && DispatchInv(w) && GoneInv(w) && Owned(w, c)
    requires Sound(r) && Frame(w, r, c) && Calm(w, r, c) && TasksPlaced(r) && ViewInv(c, ViewOf(r, c))
    requires Agreement(r.poller) && r.poller.faults == 0
    ensures Inv(r)
  {
    hide Agreement, Views, OpenFdsDistinct, DispatchInv, NamesInv, GoneInv, Owned, Frame, Mine, TasksPlaced, ViewInv;
    CalmDispatch(w, r, c);
    CalmGone(w, r, c);
    FrameKeeps(w, r, c);
  }

  lemma AcceptMain(w: World, fd: nat)
    requires Inv(w) && Enabled(w, Accept(fd, 0))
    ensures Inv(NewConnection(w, fd, 0))
  {
    hide Agreement, Views, OpenFdsDistinct, DispatchInv, NamesInv, GoneInv, OthersInv, Owned, Frame, Mine, ViewInv;
    hide PollerFrame, SetEvents, KeyFree, NewConnection, TasksPlaced, Mapped, Listed;
    CreatedCalm(w, fd, 0);
    NewConnectionShape(w, fd, 0);
    var w1 := Created(w, fd, 0);
    var c := |w.conns|;
    var p := SetEvents(w1.poller, c, READ_EVENT);
    InterestPoller(w1.poller, c, READ_EVENT);
    var k := w1.conns[c].(state := Connected, ups := 1, established := 1);
    ChangedFrame(w1, c, k, p, false);
    OthersPlaced(w1, c);
    ViewUpAtOnce(c, k, p.chans[c]);
    FinishNew(w1, Changed(w1, c, k, p, false), c);
  }

  lemma OthersPlaced(w: World, c: nat)
    requires OthersInv(w, c)
    ensures TasksPlaced(w)
  {
  }

  lemma AcceptIo(w: World, fd: nat, io: nat)
    requires Inv(w) && Enabled(w, Accept(fd, io)) && io != 0
    ensures Inv(NewConnection(w, fd, io))
  {
    hide Agreement, Views, OpenFdsDistinct, DispatchInv, NamesInv, GoneInv, OthersInv, Owned, Frame, Mine, ViewInv;
    hide PollerFrame, KeyFree, NewConnection, TasksPlaced, Mapped, Listed;
    CreatedCalm(w, fd, io);
    NewConnectionShape(w, fd, io);
    var w1 := Created(w, fd, io);
    var c := |w.conns|;
    PostFrame(w1, io, Establish(c));
    OthersPlaced(w1, c);
    ViewUpLater(c, w1.conns[c], w1.poller.chans[c]);
    assert ViewOf(w1, c).io + [Establish(c)] == [Establish(c)] && ViewOf(w1, c).main + [] == [];
    FinishNew(w1, Post(w1, io, Establish(c)), c);
  }

  // ---------------------------------------------------------------- every step

  /** A raw task is pushed before its connection leaves connectionMap_. */
  predicate TimelyLabel(w: World, a: Label) {
    a.PushRaw? ==> a.t.c < |w.conns| && Timely(w, a.t.c)
  }

  lemma StepKeeps(w: World, a: Label)
    requires Sound(w) && Inv(w) && Enabled(w, a) && TimelyLabel(w, a)
    ensures Inv(Apply(w, a))
  {
    hide Inv;
    match a
    case Accept(fd, io) =>
      if io == 0 { AcceptMain(w, fd); } else { AcceptIo(w, fd, io); }
    case PollReturn(l, active) => PollReturnKeeps(w, l, active);
    case BeginEvent(l, eof) => BeginEventKeeps(w, l, eof);
    case RunCallback(l, o) => RunCallbackKeeps(w, l, o);
    case EndEvent(_) => QuietStepKeeps(w, a);
    case SwapPending(_) => QuietStepKeeps(w, a);
    case EndBatch(_) => QuietStepKeeps(w, a);
    case RunTask(l, o) => RunTaskKeeps(w, l, o);
    case LocalSend(c, o) => LocalSendKeeps(w, c, o);
    case CheckSend(_) => CheckKeeps(w, a);
    case PushRaw(t) => PushRawKeeps(w, t);
    case CheckShutdown(_) => CheckKeeps(w, a);
    case SetDisconnecting(c, local) => SetDisconnectingKeeps(w, c, local);
    case DestroyServer => DestroyServerKeeps(w);
    case DropConnection(c) =>
      if w.conns[c].loop == 0 { DropMain(w, c); } else { DropIo(w, c); }
  }

  lemma ConnectedFacts(w: World, c: nat)
    requires Inv(w) && c < |w.conns| && w.conns[c].state == Connected
    ensures w.conns[c].established == 1 && w.conns[c].destroyed == 0 && w.conns[c].closes == 0
  {
    InvView(w, c);
  }

  lemma LocalSendMoves(w: World, c: nat, o: Outcome)
    requires Sound(w) && Enabled(w, LocalSend(c, o))
    ensures c < |w.conns| && w.conns[c].state == Connected && (w.conns[c].loop == 0 ==> !w.gone)
  {
  }

  lemma LocalSendKeeps(w: World, c: nat, o: Outcome)
    requires Sound(w) && Inv(w) && Enabled(w, LocalSend(c, o))
    ensures Inv(Apply(w, LocalSend(c, o)))
  {
    hide Inv, Sound, Enabled;
    LocalSendMoves(w, c, o);
    ConnectedFacts(w, c);
    SendInLoopKeeps(w, c, o);
  }
}
