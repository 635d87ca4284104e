/**
 * When a task that binds a raw `this` may be queued: what it finds when its turn comes, over every
 * continuation, whatever other threads push meanwhile.
 */
module LifecyclePush {
  import opened ConnState
  import opened Registry
  import opened Dispatch
  import opened Naming
  import opened Lifecycle
  import opened LifecycleInv
  import opened LifecycleSteps

  predicate Takes(a: Label, l: nat) {
    a.RunTask? && a.l == l
  }

  /** How many tasks the run takes off the queue of loop `l`. */
  function TasksTaken(run: seq<Label>, l: nat): nat {
    if run == [] then 0 else (if Takes(run[0], l) then 1 else 0) + TasksTaken(run[1..], l)
  }

  /** What the step leaves of the queue of loop `l`. */
  function Left(w: World, a: Label, l: nat): seq<Task>
    requires l < |w.loops|
    requires Takes(a, l) ==> w.loops[l].Queue() != []
  {
    if Takes(a, l) then w.loops[l].Queue()[1..] else w.loops[l].Queue()
  }

  /** The step runs connectDestroyed on `c`. */
  predicate Destroys(w: World, a: Label, c: nat)
    requires c < |w.conns|
  {
    || (a.RunTask? && a.l < |w.loops| && w.loops[a.l].batch != [] && w.loops[a.l].batch[0] == Destroy(c))
    || (a == DropConnection(c) && w.conns[c].loop == 0)
  }

  /** `q` is `base` with tasks behind it, whose destructions are of connections of loop `l`. */
  ghost predicate Behind(w: World, base: seq<Task>, q: seq<Task>, l: nat) {
    && base <= q
    && forall i | |base| <= i < |q| :: q[i].Destroy? ==> q[i].c < |w.conns| && w.conns[q[i].c].loop == l
  }

  /** `r` follows `w`: queues only grow, and connection `c` has been destroyed `dead` times more. */
  ghost predicate Moved(w: World, r: World, c: nat, i: nat, dead: nat)
    requires c < |w.conns| && i < |w.loops|
  {
    && |r.loops| == |w.loops| && |w.conns| <= |r.conns| && r.server == w.server && r.addr == w.addr
    && r.conns[c].loop == w.conns[c].loop && r.conns[c].destroyed == w.conns[c].destroyed + dead
    && Behind(w, w.loops[i].Queue(), r.loops[i].Queue(), i)
  }

  // ---------------------------------------------------------------- each effect

  lemma PostMoved(w: World, r: World, l: nat, t: Task, c: nat, i: nat, dead: nat)
    requires c < |w.conns| && i < |w.loops| && l < |w.loops| && Moved(w, r, c, i, dead)
    requires r.loops == w.loops && (t.Destroy? ==> t.c < |w.conns| && w.conns[t.c].loop == l)
    ensures Moved(w, Post(r, l, t), c, i, dead)
  {
    var q := w.loops[i].Queue();
    assert Post(r, l, t).loops[i].Queue() == if i == l then q + [t] else q;
  }

  lemma EstablishMoved(w: World, d: nat, c: nat, i: nat)
    requires Sound(w) && d < |w.conns| && c < |w.conns| && i < |w.loops|
    ensures Moved(w, ConnectEstablished(w, d), c, i, 0)
  {
    hide SetEvents, LoopSound;
  }

  lemma DestroyMoved(w: World, d: nat, c: nat, i: nat)
    requires Sound(w) && d < |w.conns| && c < |w.conns| && i < |w.loops|
    ensures Moved(w, ConnectDestroyed(w, d), c, i, if c == d then 1 else 0)
  {
    hide SetEvents, RemoveChannel, LoopSound;
  }

  lemma RemoveMoved(w: World, d: nat, c: nat, i: nat)
    requires Sound(w) && d < |w.conns| && c < |w.conns| && i < |w.loops|
    ensures Moved(w, RemoveInLoop(w, d), c, i, 0)
  {
    hide LoopSound, Name;
    var k := w.conns[d];
    var r := SetConn(w, d, k.(erased := k.erased + 1)).(names := w.names - {Name(w, d)});
    assert Moved(w, r, c, i, 0);
    PostMoved(w, r, k.loop, Destroy(d), c, i, 0);
  }

  lemma CloseMoved(w: World, d: nat, c: nat, i: nat)
    requires Sound(w) && d < |w.conns| && c < |w.conns| && i < |w.loops|
    ensures Moved(w, HandleClose(w, d), c, i, 0)
  {
    hide LoopSound, Name, SetEvents, RemoveInLoop;
    var k := w.conns[d];
    var w1 := SetConn(w, d, k.(state := Disconnected, downs := k.downs + 1, closes := k.closes + 1))
              .(poller := DisableAll(w.poller, d));
    assert Moved(w, w1, c, i, 0);
    if k.loop == 0 {
      RemoveMoved(w1, d, c, i);
      MovedTrans(w, w1, RemoveInLoop(w1, d), c, i, 0, 0);
    } else {
      PostMoved(w, w1, 0, Remove(d), c, i, 0);
    }
  }

  lemma MovedTrans(w: World, w1: World, r: World, c: nat, i: nat, dead: nat, more: nat)
    requires c < |w.conns| && i < |w.loops| && Moved(w, w1, c, i, dead) && Moved(w1, r, c, i, more)
    requires |w1.conns| == |w.conns| && forall d | 0 <= d < |w.conns| :: w1.conns[d].loop == w.conns[d].loop
    ensures Moved(w, r, c, i, dead + more)
  {
  }

  lemma WriteMoved(w: World, d: nat, o: Outcome, c: nat, i: nat)
    requires Sound(w) && d < |w.conns| && c < |w.conns| && i < |w.loops|
    ensures Moved(w, HandleWrite(w, d, o), c, i, 0)
  {
    hide LoopSound, SetEvents;
    PostMoved(w, w.(poller := DisableWriting(w.poller, d)), w.conns[d].loop, Notify(d), c, i, 0);
  }

  lemma SendMoved(w: World, d: nat, o: Outcome, c: nat, i: nat)
    requires Sound(w) && d < |w.conns| && c < |w.conns| && i < |w.loops|
    ensures Moved(w, SendInLoop(w, d, o), c, i, 0)
  {
    hide LoopSound, SetEvents;
    PostMoved(w, w, w.conns[d].loop, Notify(d), c, i, 0);
  }

  lemma AcceptMoved(w: World, fd: nat, io: nat, c: nat, i: nat)
    requires Sound(w) && io < |w.loops| && c < |w.conns| && i < |w.loops|
    ensures Moved(w, NewConnection(w, fd, io), c, i, 0)
  {
    hide Name, SetEvents;
    NewConnectionShape(w, fd, io);
    PostMoved(w, Created(w, fd, io), io, Establish(|w.conns|), c, i, 0);
  }

  lemma DropMoved(w: World, d: nat, c: nat, i: nat)
    requires Sound(w) && d < |w.conns| && c < |w.conns| && i < |w.loops|
    ensures Moved(w, Drop(w, d), c, i, if c == d && w.conns[d].loop == 0 then 1 else 0)
  {
    hide LoopSound, Name, ConnectDestroyed;
    var k := w.conns[d].(erased := w.conns[d].erased + 1, dropped := w.conns[d].dropped + 1);
    var w1 := Changed(w, d, k, w.poller, true);
    assert Moved(w, w1, c, i, 0);
    if k.loop == 0 {
      DestroyMoved(w1, d, c, i);
      MovedTrans(w, w1, ConnectDestroyed(w1, d), c, i, 0, if c == d then 1 else 0);
    } else {
      PostMoved(w, w1, k.loop, Destroy(d), c, i, 0);
    }
  }

  // ---------------------------------------------------------------- each step

  lemma TaskMoved(w: World, t: Task, o: Outcome, c: nat, i: nat)
    requires Sound(w) && t.c < |w.conns| && c < |w.conns| && i < |w.loops|
    ensures Moved(w, RunOne(w, t, o), c, i, if t == Destroy(c) then 1 else 0)
  {
    hide Moved, Sound, ConnectEstablished, ConnectDestroyed, RemoveInLoop, SendInLoop;
    match t
    case Establish(d) => EstablishMoved(w, d, c, i);
    case Remove(d) => RemoveMoved(w, d, c, i);
    case Destroy(d) => DestroyMoved(w, d, c, i);
    case Send(d) => SendMoved(w, d, o, c, i);
    case Notify(_) => StillMoved(w, c, i);
    case HalfClose(_) => StillMoved(w, c, i);
  }

  lemma StillMoved(w: World, c: nat, i: nat)
    requires c < |w.conns| && i < |w.loops|
    ensures Moved(w, w, c, i, 0)
  {
  }

  lemma CallbackMoved(w: World, l: nat, o: Outcome, c: nat, i: nat)
    requires Sound(w) && Enabled(w, RunCallback(l, o)) && c < |w.conns| && i < |w.loops|
    ensures Moved(w, CallNext(w, l, o), c, i, 0)
  {
    assert LoopSound(w.loops[l], |w.conns|);
    var ph := w.loops[l].phase;
    assert ph.c < |w.conns|;
    var w1 := SetPhase(w, l, ph.(todo := ph.todo[1..]));
    assert Moved(w, w1, c, i, 0);
    hide LoopSound, HandleClose, HandleWrite, Moved;
    if Closing(ph.todo[0], ph.eof) {
      CloseMoved(w1, ph.c, c, i);
      MovedTrans(w, w1, HandleClose(w1, ph.c), c, i, 0, 0);
    } else if ph.todo[0].WriteCallback? {
      WriteMoved(w1, ph.c, o, c, i);
      MovedTrans(w, w1, HandleWrite(w1, ph.c, o), c, i, 0, 0);
    }
  }

  lemma PushMoved(w: World, t: Task, c: nat, i: nat)
    requires Sound(w) && Enabled(w, PushRaw(t)) && c < |w.conns| && i < |w.loops|
    ensures Moved(w, QueueRaw(w, t), c, i, 0)
  {
    PostMoved(w, w.(raw := w.raw - multiset{t}), w.conns[t.c].loop, t, c, i, 0);
  }

  lemma StoreMoved(w: World, d: nat, local: bool, c: nat, i: nat)
    requires Sound(w) && d < |w.conns| && c < |w.conns| && i < |w.loops|
    ensures Moved(w, StoreDisconnecting(w, d, local), c, i, 0)
  {
    hide LoopSound;
  }

  /** Steps of a loop thread between tasks and callbacks, and looks at the state. */
  lemma QuietMoved(w: World, a: Label, c: nat, i: nat)
    requires Sound(w) && Enabled(w, a) && c < |w.conns| && i < |w.loops|
    requires || a.PollReturn? || a.BeginEvent? || a.EndEvent? || a.SwapPending? || a.EndBatch?
             || a.CheckSend? || a.CheckShutdown? || a.DestroyServer?
    ensures Moved(w, Apply(w, a), c, i, 0)
  {
    hide LoopSound, Owned, Callbacks;
    var r := Apply(w, a);
    assert r.conns == w.conns && |r.loops| == |w.loops|;
    assert r.loops[i].Queue() == w.loops[i].Queue();
  }

  lemma OtherMoved(w: World, a: Label, c: nat, i: nat)
    requires Sound(w) && Enabled(w, a) && c < |w.conns| && i < |w.loops| && !a.RunTask?
    ensures Moved(w, Apply(w, a), c, i, if Destroys(w, a, c) then 1 else 0)
  {
    hide Sound, LoopSound, Name, NewConnection, CallNext, SendInLoop, Drop, Owned, Moved, QueueRaw, StoreDisconnecting;
    match a
    case Accept(fd, io) => AcceptMoved(w, fd, io, c, i);
    case RunCallback(l, o) => CallbackMoved(w, l, o, c, i);
    case LocalSend(d, o) => SendMoved(w, d, o, c, i);
    case DropConnection(d) => DropMoved(w, d, c, i);
    case PushRaw(t) => PushMoved(w, t, c, i);
    case SetDisconnecting(d, local) => StoreMoved(w, d, local, c, i);
    case _ => QuietMoved(w, a, c, i);
  }

  /**
   * Queues are first in, first out: a step takes the head off at most and adds at the end only, and
   * nothing but the task Destroy(c), or the destructor on the main loop, destroys `c`.
   */
  lemma StepMoved(w: World, a: Label, c: nat, i: nat)
    requires Sound(w) && Enabled(w, a) && c < |w.conns| && i < |w.loops|
    ensures Takes(a, i) ==> w.loops[i].Queue() != []
    ensures |Apply(w, a).loops| == |w.loops| && |w.conns| <= |Apply(w, a).conns|
    ensures Apply(w, a).server == w.server && Apply(w, a).addr == w.addr
    ensures Apply(w, a).conns[c].loop == w.conns[c].loop
    ensures Apply(w, a).conns[c].destroyed == w.conns[c].destroyed + if Destroys(w, a, c) then 1 else 0
    ensures Behind(w, Left(w, a, i), Apply(w, a).loops[i].Queue(), i)
  {
    if a.RunTask? {
      var b := TakeTask(w, a.l);
      assert LoopSound(w.loops[a.l], |w.conns|) && w.loops[a.l].batch[0].c < |w.conns|;
      assert w.loops[a.l].Queue()[1..] == b.loops[a.l].Queue();
      hide LoopSound, RunOne;
      TaskMoved(b, w.loops[a.l].batch[0], a.o, c, i);
    } else {
      hide Sound, Enabled, Apply;
      OtherMoved(w, a, c, i);
    }
  }

  // ---------------------------------------------------------------- entries of connectionMap_

  lemma ErasedOther(w: World, d: nat, c: nat)
    requires w.addr.Valid() && c < INT_MAX && d < INT_MAX && d != c && Listed(w, c)
    ensures Name(w, c) in w.names - {Name(w, d)}
  {
    NamesDistinct(w.server, w.addr, c + 1, d + 1);
  }

  /** The entry of `c` is still there, or it has gone and the destruction of `c` is queued. */
  ghost predicate Kept(w: World, c: nat, r: World)
    requires c < |w.conns| && w.conns[c].loop < |r.loops|
  {
    Listed(r, c) || Destroy(c) in r.loops[w.conns[c].loop].Queue()
  }

  lemma RemoveKept(w: World, d: nat, c: nat)
    requires Sound(w) && d < |w.conns| && c < |w.conns| <= INT_MAX && Listed(w, c)
    ensures Kept(w, c, RemoveInLoop(w, d))
  {
    hide ConnName, LoopSound;
    if d != c {
      ErasedOther(w, d, c);
    } else {
      var q := RemoveInLoop(w, d).loops[w.conns[d].loop].Queue();
      assert q[|q| - 1] == Destroy(d);
    }
  }

  lemma CloseKept(w: World, d: nat, c: nat)
    requires Sound(w) && d < |w.conns| && c < |w.conns| <= INT_MAX && Listed(w, c)
    ensures Kept(w, c, HandleClose(w, d))
  {
    hide ConnName, LoopSound, SetEvents, RemoveInLoop;
    var k := w.conns[d];
    var w1 := SetConn(w, d, k.(state := Disconnected, downs := k.downs + 1, closes := k.closes + 1))
              .(poller := DisableAll(w.poller, d));
    assert Name(w1, c) == Name(w, c);
    if k.loop == 0 {
      RemoveKept(w1, d, c);
    }
  }

  lemma DropKept(w: World, d: nat, c: nat)
    requires Sound(w) && d < |w.conns| && c < |w.conns| <= INT_MAX && Listed(w, c)
    ensures (d == c && w.conns[d].loop == 0) || Kept(w, c, Drop(w, d))
  {
    hide ConnName, LoopSound, SetEvents, RemoveChannel;
    if d != c {
      ErasedOther(w, d, c);
    } else if w.conns[d].loop != 0 {
      var q := Drop(w, d).loops[w.conns[d].loop].Queue();
      assert q[|q| - 1] == Destroy(d);
    }
  }

  lemma TaskKept(w: World, l: nat, o: Outcome, c: nat)
    requires Sound(w) && Enabled(w, RunTask(l, o)) && c < |w.conns| <= INT_MAX && Listed(w, c)
    requires w.loops[l].batch[0] != Destroy(c)
    ensures |Apply(w, RunTask(l, o)).loops| == |w.loops| && Kept(w, c, Apply(w, RunTask(l, o)))
  {
    assert LoopSound(w.loops[l], |w.conns|) && w.loops[l].batch[0].c < |w.conns|;
    hide LoopSound, ConnName, SetEvents, RemoveChannel, RemoveInLoop;
    StepMoved(w, RunTask(l, o), c, 0);
    if w.loops[l].batch[0].Remove? {
      RemoveKept(TakeTask(w, l), w.loops[l].batch[0].c, c);
    }
  }

  lemma CallbackKept(w: World, l: nat, o: Outcome, c: nat)
    requires Sound(w) && Enabled(w, RunCallback(l, o)) && c < |w.conns| <= INT_MAX && Listed(w, c)
    ensures |CallNext(w, l, o).loops| == |w.loops| && Kept(w, c, CallNext(w, l, o))
  {
    var ph := w.loops[l].phase;
    assert LoopSound(w.loops[l], |w.conns|) && ph.c < |w.conns|;
    hide LoopSound, ConnName, SetEvents, HandleClose;
    CallbackMoved(w, l, o, c, 0);
    if Closing(ph.todo[0], ph.eof) {
      CloseKept(SetPhase(w, l, ph.(todo := ph.todo[1..])), ph.c, c);
    }
  }

  lemma StepKept(w: World, a: Label, c: nat)
    requires Sound(w) && Enabled(w, a) && c < |w.conns| <= INT_MAX && Listed(w, c) && !Destroys(w, a, c)
    ensures |Apply(w, a).loops| == |w.loops| && Kept(w, c, Apply(w, a))
  {
    StepMoved(w, a, c, 0);
    match a
    case RunTask(l, o) => TaskKept(w, l, o, c);
    case RunCallback(l, o) => CallbackKept(w, l, o, c);
    case DropConnection(d) => DropKept(w, d, c);
    case _ =>
      hide ConnName, LoopSound, SetEvents, Owned, Callbacks, Kept;
      OtherListed(w, a, c);
  }

  lemma OtherListed(w: World, a: Label, c: nat)
    requires Sound(w) && Enabled(w, a) && c < |w.conns| && Listed(w, c)
    requires !a.RunTask? && !a.RunCallback? && !a.DropConnection?
    ensures Listed(Apply(w, a), c)
  {
    hide ConnName, LoopSound, SetEvents, Owned, Callbacks;
  }

  // ---------------------------------------------------------------- what a raw task finds

  /** The raw task `t` has `n` tasks ahead of it in loop `l`, none of which destroys its connection. */
  ghost predicate SafeAhead(w: World, t: Task, l: nat, n: nat) {
    && Sound(w) && t.Raw() && t.c < |w.conns| <= INT_MAX && l == w.conns[t.c].loop && (l == 0 ==> !w.gone)
    && w.conns[t.c].destroyed == 0 && OnlyThere(w, t.c, l)
    && SafeQueue(w.loops[l].Queue(), t, n)
    && (Listed(w, t.c) || Destroy(t.c) in w.loops[l].Queue())
  }

  ghost predicate SafeQueue(q: seq<Task>, t: Task, n: nat) {
    n < |q| && q[n] == t && forall i | 0 <= i < n :: q[i] != Destroy(t.c)
  }

  /** No loop but `l` has the destruction of `c` queued. */
  ghost predicate OnlyThere(w: World, c: nat, l: nat) {
    forall i | 0 <= i < |w.loops| && i != l :: Destroy(c) !in w.loops[i].Queue()
  }

  /** The raw task `t` has `n` tasks ahead of it in loop `l`, and its connection is destroyed or about to be. */
  ghost predicate LateAhead(w: World, t: Task, l: nat, n: nat) {
    && Sound(w) && t.Raw() && t.c < |w.conns| && l == w.conns[t.c].loop
    && LateQueue(w.loops[l].Queue(), t, n, w.conns[t.c].destroyed > 0)
  }

  ghost predicate LateQueue(q: seq<Task>, t: Task, n: nat, destroyed: bool) {
    n < |q| && q[n] == t && (destroyed || exists i | 0 <= i < n :: q[i] == Destroy(t.c))
  }

  /** One step ahead: `d` tasks off the head, some more at the end. */
  lemma LateQueueStep(q: seq<Task>, q': seq<Task>, t: Task, n: nat, d: nat, destroyed: bool, destroyed': bool)
    requires LateQueue(q, t, n, destroyed) && d <= n && d <= 1 && q[d..] <= q'
    requires destroyed || (d == 1 && q[0] == Destroy(t.c)) ==> destroyed'
    ensures LateQueue(q', t, n - d, destroyed')
  {
    assert forall i | 0 <= i < |q| - d :: q'[i] == q[d..][i] == q[i + d];
    if !destroyed' {
      var i :| 0 <= i < n && q[i] == Destroy(t.c);
      assert q'[i - d] == Destroy(t.c);
    }
  }

  lemma LateStep(w: World, a: Label, t: Task, l: nat, n: nat)
    requires LateAhead(w, t, l, n) && Enabled(w, a) && (Takes(a, l) ==> n > 0)
    ensures LateAhead(Apply(w, a), t, l, if Takes(a, l) then n - 1 else n)
  {
    StepMoved(w, a, t.c, l);
    var w' := Apply(w, a);
    var q, q' := w.loops[l].Queue(), w'.loops[l].Queue();
    var d := if Takes(a, l) then 1 else 0;
    assert Takes(a, l) ==> w.loops[l].batch != [] && q[0] == w.loops[l].batch[0];
    hide Sound, Apply, LateQueue, Enabled;
    assert Left(w, a, l) == q[d..];
    LateQueueStep(q, q', t, n, d, w.conns[t.c].destroyed > 0, w'.conns[t.c].destroyed > 0);
  }

  lemma SafeQueueStep(q: seq<Task>, q': seq<Task>, t: Task, n: nat, d: nat)
    requires SafeQueue(q, t, n) && d <= n && d <= 1 && q[d..] <= q'
    ensures SafeQueue(q', t, n - d)
    ensures Destroy(t.c) in q ==> Destroy(t.c) in q'
  {
    assert forall i | 0 <= i < |q| - d :: q'[i] == q[d..][i] == q[i + d];
    if Destroy(t.c) in q {
      var i :| 0 <= i < |q| && q[i] == Destroy(t.c);
      assert q'[i - d] == Destroy(t.c);
    }
  }

  lemma OnlyThereStep(w: World, a: Label, c: nat, l: nat)
    requires Sound(w) && Enabled(w, a) && c < |w.conns| && l == w.conns[c].loop && OnlyThere(w, c, l)
    ensures OnlyThere(Apply(w, a), c, l)
  {
    StepMoved(w, a, c, 0);
    var w' := Apply(w, a);
    forall i | 0 <= i < |w'.loops| && i != l ensures Destroy(c) !in w'.loops[i].Queue() {
      StepMoved(w, a, c, i);
      hide Sound, Apply, Enabled;
      assert Destroy(c) !in w.loops[i].Queue();
    }
  }

  lemma TaskSize(w: World, t: Task, o: Outcome)
    requires Sound(w) && t.c < |w.conns|
    ensures |RunOne(w, t, o).conns| == |w.conns| && RunOne(w, t, o).gone == w.gone
  {
    hide LoopSound, Name, SetEvents, RemoveChannel;
  }

  lemma CallbackSize(w: World, l: nat, o: Outcome)
    requires Sound(w) && Enabled(w, RunCallback(l, o))
    ensures |CallNext(w, l, o).conns| == |w.conns| && CallNext(w, l, o).gone == w.gone
  {
    assert LoopSound(w.loops[l], |w.conns|);
    hide LoopSound, Name, SetEvents;
  }

  lemma RunTaskSize(w: World, l: nat, o: Outcome)
    requires Sound(w) && Enabled(w, RunTask(l, o))
    ensures var r := Apply(w, RunTask(l, o)); |r.conns| == |w.conns| && r.gone == w.gone
  {
    hide RunOne;
    assert LoopSound(w.loops[l], |w.conns|) && w.loops[l].batch[0].c < |w.conns|;
    TaskSize(TakeTask(w, l), w.loops[l].batch[0], o);
  }

  lemma OtherSize(w: World, a: Label)
    requires Sound(w) && Enabled(w, a) && !a.RunTask? && !a.RunCallback? && |w.conns| <= INT_MAX
    ensures Apply(w, a).gone <==> w.gone || a.DestroyServer?
    ensures |Apply(w, a).conns| <= INT_MAX
  {
    hide LoopSound, Name, SetEvents, RemoveChannel, Owned, Callbacks, NewConnection, Drop;
    match a
    case Accept(fd, io) => NewConnectionShape(w, fd, io);
    case DropConnection(c) => DropSize(w, c);
    case _ =>
  }

  lemma DropSize(w: World, c: nat)
    requires Sound(w) && c < |w.conns|
    ensures |Drop(w, c).conns| == |w.conns| && Drop(w, c).gone == w.gone
  {
    hide LoopSound, Name, SetEvents, RemoveChannel;
  }

  lemma GoneStep(w: World, a: Label)
    requires Sound(w) && Enabled(w, a) && |w.conns| <= INT_MAX
    ensures Apply(w, a).gone <==> w.gone || a.DestroyServer?
    ensures |Apply(w, a).conns| <= INT_MAX
  {
    hide Sound, Enabled, RunOne, CallNext, SendInLoop, NewConnection, Drop, HandleEvent;
    match a
    case RunTask(l, o) => RunTaskSize(w, l, o);
    case RunCallback(l, o) => CallbackSize(w, l, o);
    case _ => OtherSize(w, a);
  }

  /** Nothing ahead of the task, nor on another loop, nor the destructor, destroys the connection. */
  lemma SafeNotDestroyed(w: World, a: Label, t: Task, l: nat, n: nat)
    requires SafeAhead(w, t, l, n) && Enabled(w, a) && (Takes(a, l) ==> n > 0)
    ensures !Destroys(w, a, t.c) && (l == 0 ==> !a.DestroyServer?)
  {
    hide LoopSound, Name;
    if a.RunTask? {
      assert w.loops[a.l].batch[0] == w.loops[a.l].Queue()[0];
    }
  }

  lemma SafeStep(w: World, a: Label, t: Task, l: nat, n: nat)
    requires SafeAhead(w, t, l, n) && Enabled(w, a) && (Takes(a, l) ==> n > 0)
    ensures SafeAhead(Apply(w, a), t, l, if Takes(a, l) then n - 1 else n)
  {
    SafeNotDestroyed(w, a, t, l, n);
    GoneStep(w, a);
    StepMoved(w, a, t.c, l);
    OnlyThereStep(w, a, t.c, l);
    if Listed(w, t.c) {
      StepKept(w, a, t.c);
    }
    hide Sound, Apply, Enabled, OnlyThere, SafeQueue, Listed;
    var d := if Takes(a, l) then 1 else 0;
    assert Left(w, a, l) == w.loops[l].Queue()[d..];
    SafeQueueStep(w.loops[l].Queue(), Apply(w, a).loops[l].Queue(), t, n, d);
  }

  lemma {:induction false} LateRun(w: World, t: Task, l: nat, n: nat, run: seq<Label>)
    requires Sound(w) && LateAhead(w, t, l, n) && Executes(w, run) && TasksTaken(run, l) <= n
    ensures LateAhead(Final(w, run), t, l, n - TasksTaken(run, l))
    decreases |run|
  {
    hide LateAhead, Sound, Apply, Enabled;
    if run != [] {
      LateStep(w, run[0], t, l, n);
      LateRun(Apply(w, run[0]), t, l, if Takes(run[0], l) then n - 1 else n, run[1..]);
    }
  }

  lemma {:induction false} SafeRun(w: World, t: Task, l: nat, n: nat, run: seq<Label>)
    requires Sound(w) && SafeAhead(w, t, l, n) && Executes(w, run) && TasksTaken(run, l) <= n
    ensures SafeAhead(Final(w, run), t, l, n - TasksTaken(run, l))
    decreases |run|
  {
    hide SafeAhead, Sound, Apply, Enabled;
    if run != [] {
      SafeStep(w, run[0], t, l, n);
      SafeRun(Apply(w, run[0]), t, l, if Takes(run[0], l) then n - 1 else n, run[1..]);
    }
  }

  /** What is gone stays gone. */
  lemma {:induction false} GoneRun(w: World, run: seq<Label>)
    requires Sound(w) && |w.conns| <= INT_MAX && Executes(w, run) && w.gone
    ensures Final(w, run).gone
    decreases |run|
  {
    hide Sound, Enabled, Apply;
    if run != [] {
      GoneStep(w, run[0]);
      GoneRun(Apply(w, run[0]), run[1..]);
    }
  }

  // ---------------------------------------------------------------- the moment of the push

  /** In which queues the destruction of `c` may be, and what its absence or presence says. */
  lemma DestroyPlaced(w: World, c: nat, l: nat)
    requires Inv(w) && c < |w.conns| && l == w.conns[c].loop
    ensures OnlyThere(w, c, l)
    ensures Listed(w, c) ==> Destroy(c) !in w.loops[l].Queue() && w.conns[c].destroyed == 0
    ensures !Listed(w, c) ==> Destroy(c) in w.loops[l].Queue() || w.conns[c].destroyed > 0
  {
    hide Agreement, Views, OpenFdsDistinct, DispatchInv, NamesInv, GoneInv, Mine, LoopSound;
    InvView(w, c);
    var v := ViewOf(w, c);
    assert Destroy(c) in v.io <==> multiset(v.io)[Destroy(c)] > 0;
    MineHas(w.loops[l].Queue(), c);
    MineHas(w.loops[0].Queue(), c);
    forall i | 0 <= i < |w.loops| && i != l ensures Destroy(c) !in w.loops[i].Queue() {
      var t := Destroy(c);
      assert t in w.loops[i].Queue() ==> t.c == c && i == 0;
    }
  }

  lemma PushedQueue(w: World, t: Task, l: nat)
    requires Sound(w) && Enabled(w, PushRaw(t)) && l == w.conns[t.c].loop
    ensures var r := QueueRaw(w, t);
            && r == w.(raw := r.raw, loops := r.loops) && |r.loops| == |w.loops|
            && r.loops[l].Queue() == w.loops[l].Queue() + [t]
            && forall i | 0 <= i < |w.loops| && i != l :: r.loops[i] == w.loops[i]
  {
  }

  lemma SafeAtHead(w: World, t: Task, l: nat)
    requires SafeAhead(w, t, l, 0) && l < |w.loops| && w.loops[l].batch != []
    ensures w.loops[l].batch[0] == t && t.c < |w.conns| && w.conns[t.c].destroyed == 0 && Owned(w, t.c)
  {
    assert w.loops[l].Queue()[0] == w.loops[l].batch[0];
    assert Owns(Destroy(t.c), t.c);
  }

  lemma LateAtHead(w: World, t: Task, l: nat)
    requires LateAhead(w, t, l, 0) && l < |w.loops| && w.loops[l].batch != []
    ensures w.loops[l].batch[0] == t && t.c < |w.conns| && w.conns[t.c].destroyed > 0
  {
    assert w.loops[l].Queue()[0] == w.loops[l].batch[0];
  }

  /** `w1` is `w` once another thread has queued its raw task `t` on loop `l`. */
  ghost predicate Pushes(w: World, t: Task, l: nat, w1: World) {
    && Sound(w) && Sound(w1) && t.c < |w.conns| && l < |w.loops| && l == w.conns[t.c].loop
    && Enabled(w, PushRaw(t)) && w1 == Apply(w, PushRaw(t))
  }

  lemma PushReady(w: World, t: Task, l: nat, w1: World)
    requires Pushes(w, t, l, w1) && Inv(w)
    ensures t.c < |w.conns| && l < |w.loops| && l == w.conns[t.c].loop && Enabled(w, PushRaw(t)) && t.Raw()
    ensures w1 == QueueRaw(w, t) && |w1.conns| == |w.conns| <= INT_MAX && w1.gone == w.gone
  {
    hide Sound, Agreement, Views, OpenFdsDistinct, TasksPlaced, DispatchInv, GoneInv, Name;
  }

  lemma PushedSafe(w: World, t: Task, l: nat, w1: World)
    requires Pushes(w, t, l, w1) && Listed(w, t.c) && (l == 0 ==> !w.gone) && Inv(w)
    ensures SafeAhead(w1, t, l, |w.loops[l].Queue()|)
  {
    hide Inv, Enabled, Apply, QueueRaw, LoopSound, ConnName;
    PushReady(w, t, l, w1);
    DestroyPlaced(w, t.c, l);
    PushedQueue(w, t, l);
  }

  lemma PushedLate(w: World, t: Task, l: nat, w1: World)
    requires Pushes(w, t, l, w1) && !Listed(w, t.c) && Inv(w)
    ensures LateAhead(w1, t, l, |w.loops[l].Queue()|)
  {
    hide Inv, Enabled, Apply, QueueRaw, LoopSound, ConnName, OnlyThere;
    PushReady(w, t, l, w1);
    DestroyPlaced(w, t.c, l);
    PushedQueue(w, t, l);
    var q := w.loops[l].Queue();
    if Destroy(t.c) in q {
      var i :| 0 <= i < |q| && q[i] == Destroy(t.c);
      assert (q + [t])[i] == Destroy(t.c);
    }
  }

  lemma TaskReady(r: World, l: nat, o: Outcome)
    requires Sound(r) && Enabled(r, RunTask(l, o))
    ensures l < |r.loops| && r.loops[l].batch != [] && (l == 0 ==> !r.gone)
  {
    hide Sound;
  }

  /**
   * A sendInLoop or shutdownInLoop that another thread has decided on is queued as task number n of
   * its loop. Whatever the loops and all threads do then, when n tasks have been taken off that queue
   * and the loop is about to take the next, it is this one; and its connection has not been destroyed
   * exactly if connectionMap_ still held it at the push, in which case somebody owns the object.
   */
  lemma PushSendSafeIff(w: World, t: Task, l: nat, w1: World, run: seq<Label>, r: World, o: Outcome)
    requires Pushes(w, t, l, w1) && Executes(w1, run) && r == Final(w1, run)
    requires TasksTaken(run, l) == |w.loops[l].Queue()| && Enabled(r, RunTask(l, o)) && Inv(w)
    ensures r.loops[l].batch[0] == t && t.c < |r.conns|
    ensures r.conns[t.c].destroyed == 0 <==> Listed(w, t.c)
    ensures Listed(w, t.c) ==> Owned(r, t.c)
  {
    hide Inv, Pushes, Sound, Apply, Enabled, Listed, Owned, SafeAhead, LateAhead, Executes, Final, TasksTaken;
    PushReady(w, t, l, w1);
    TaskReady(r, l, o);
    var n := |w.loops[l].Queue()|;
    if !Listed(w, t.c) {
      PushedLate(w, t, l, w1);
      LateRun(w1, t, l, n, run);
      LateAtHead(r, t, l);
    } else if l == 0 && w.gone {
      GoneRun(w1, run);
      assert false;
    } else {
      PushedSafe(w, t, l, w1);
      SafeRun(w1, t, l, n, run);
      SafeAtHead(r, t, l);
    }
  }
}
