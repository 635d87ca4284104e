/**
 * The inductive invariant of the life-cycle machine. Queues are projected to the tasks of one
 * connection, which turns the whole world into independent per-connection automata.
 */
module LifecycleInv {
  import opened ConnState
  import opened Registry
  import opened Naming
  import opened Lifecycle

  /** The tasks of one connection in a queue, in order. */
  function Mine(q: seq<Task>, c: nat): seq<Task> {
    if q == [] then [] else (if q[0].c == c then [q[0]] else []) + Mine(q[1..], c)
  }

  lemma {:induction false} MineConcat(a: seq<Task>, b: seq<Task>, c: nat)
    ensures Mine(a + b, c) == Mine(a, c) + Mine(b, c)
  {
    if a == [] {
      assert a + b == b;
    } else {
      var head := if a[0].c == c then [a[0]] else [];
      MineConcat(a[1..], b, c);
      assert (a + b)[1..] == a[1..] + b;
      assert Mine(a + b, c) == head + Mine(a[1..] + b, c);
      assert head + (Mine(a[1..], c) + Mine(b, c)) == (head + Mine(a[1..], c)) + Mine(b, c);
    }
  }

  lemma {:induction false} MineHas(q: seq<Task>, c: nat)
    ensures forall t :: t in Mine(q, c) <==> t in q && t.c == c
  {
    if q != [] {
      MineHas(q[1..], c);
      assert q == [q[0]] + q[1..];
    }
  }

  lemma {:induction false} MineNone(q: seq<Task>, c: nat)
    requires forall t <- q :: t.c != c
    ensures Mine(q, c) == []
  {
    if q != [] {
      MineNone(q[1..], c);
    }
  }

  /** All that the invariant knows about one connection. */
  datatype View = View(
    k: Conn, chan: Chan<Slot>, listed: bool, mapped: bool, io: seq<Task>, main: seq<Task>)

  ghost function ViewOf(w: World, c: nat): View
    requires Sound(w) && c < |w.conns|
  {
    var k := w.conns[c];
    View(k, w.poller.chans[c], Listed(w, c), Mapped(w.poller, c),
         Mine(w.loops[k.loop].Queue(), c), Mine(w.loops[0].Queue(), c))
  }

  /** Which tasks of the connection may sit where, and in which order. */
  ghost predicate QueueInv(c: nat, v: View) {
    && (forall t <- v.io :: t.c == c && !t.Remove?)
    && (forall t <- v.main :: t.c == c)
    && (v.k.loop == 0 ==> v.io == v.main && forall t <- v.io :: !t.Establish?)
    && (v.k.loop != 0 ==> forall t <- v.main :: t.Remove?)
    && (v.k.established == 0 ==>
          |v.io| > 0 && v.io[0].Establish? && forall i | 1 <= i < |v.io| :: v.io[i].Destroy?)
    && (v.k.established == 1 ==> forall t <- v.io :: !t.Establish?)
    && (forall i, j | 0 <= i < j < |v.io| :: v.io[i].Destroy? ==> !v.io[j].Raw())
    && (v.k.destroyed > 0 ==> forall t <- v.io :: !t.Raw())
  }

  /** Every close is matched by one erasure, every erasure by one destruction, queued or done. */
  ghost predicate CountInv(c: nat, v: View) {
    && multiset(v.main)[Remove(c)] + v.k.erased == v.k.closes + v.k.dropped
    && multiset(v.io)[Destroy(c)] + v.k.destroyed == v.k.erased
    && (v.listed <==> v.k.erased == 0)
    && v.k.established <= 1 && v.k.ups == v.k.established
    && v.k.dropped <= 1 && (v.k.dropped == 1 ==> v.k.closes == 0 && v.k.erased == 1)
    && v.k.downs == v.k.closes + v.k.forced
    && v.k.forced <= 1 && (v.k.forced == 1 ==> v.k.destroyed > 0 && v.k.closes == 0)
  }

  /** State, interest and registration go together. */
  ghost predicate StateInv(v: View) {
    var k := v.k;
    && v.chan.key == Slot(k.loop, k.fd)
    && (k.established == 0 <==> k.state == Connecting)
    && (k.established == 0 ==>
          k.closes == 0 && k.destroyed == 0 && v.chan.events == NO_EVENT && v.chan.index == New && !v.mapped)
    && (k.established == 1 && k.destroyed == 0 ==> v.mapped)
    && (k.established == 1 && k.destroyed == 0 && k.closes == 0 ==>
          k.state != Disconnected && READ_EVENT <= v.chan.events && v.chan.index == Added)
    && (k.closes > 0 ==> k.established == 1)
    && (k.state == Connected ==> k.closes == 0 && k.destroyed == 0)
    && (k.destroyed > 0 ==> k.established == 1 && v.chan.index == New && !v.mapped)
  }

  ghost predicate ViewInv(c: nat, v: View) {
    QueueInv(c, v) && CountInv(c, v) && StateInv(v)
  }

  ghost predicate OwnedView(c: nat, v: View) {
    v.listed || (exists t <- v.io :: Owns(t, c)) || (exists t <- v.main :: Owns(t, c))
  }

  // ---------------------------------------------------------------- the world's invariant

  ghost predicate Views(w: World)
    requires Sound(w)
  {
    forall c | 0 <= c < |w.conns| :: ViewInv(c, ViewOf(w, c))
  }

  /** Connections whose sockets are still open have different fds. */
  ghost predicate OpenFdsDistinct(w: World) {
    forall c, d | 0 <= c < |w.conns| && 0 <= d < |w.conns| && c != d && Owned(w, c) && Owned(w, d) ::
      w.conns[c].fd != w.conns[d].fd
  }

  ghost predicate TasksPlaced(w: World)
    requires Sound(w)
  {
    forall l | 0 <= l < |w.loops| :: forall t <- w.loops[l].Queue() ::
      t.c < |w.conns| && (l == 0 || l == w.conns[t.c].loop)
  }

  /** The channels a loop is still going to touch in this iteration. */
  function Active(phase: Phase): seq<nat> {
    match phase
    case Dispatching(active) => Ids(active)
    case Handling(c, _, _, rest) => [c] + Ids(rest)
    case _ => []
  }

  function Ids(active: seq<Ready>): (r: seq<nat>)
    ensures |r| == |active| && forall i | 0 <= i < |r| :: r[i] == active[i].c
  {
    seq(|active|, i requires 0 <= i < |active| => active[i].c)
  }

  ghost predicate Undestroyed(w: World, l: nat, c: nat) {
    c < |w.conns| && w.conns[c].loop == l && w.conns[c].established == 1 && w.conns[c].destroyed == 0
  }

  ghost predicate DispatchInv(w: World) {
    forall l | 0 <= l < |w.loops| ::
      && (forall c <- Active(w.loops[l].phase) :: Undestroyed(w, l, c))
      && (forall i, j | 0 <= i < j < |Active(w.loops[l].phase)| ::
            Active(w.loops[l].phase)[i] != Active(w.loops[l].phase)[j])
  }

  ghost predicate NamesInv(w: World) {
    && |w.conns| <= INT_MAX
    && forall n <- w.names :: w.names[n] < |w.conns| && n == Name(w, w.names[n])
  }

  ghost predicate GoneInv(w: World)
    requires Sound(w)
  {
    && (w.gone ==> w.loops[0].Queue() == [] && w.loops[0].phase.Polling?)
    && (forall k <- w.conns :: k.dropped > 0 ==> w.gone)
    && (forall c <- w.stopping :: c < |w.conns| && w.conns[c].established == 1)
    && (forall t <- w.raw :: t.Raw() && t.c < |w.conns| && w.conns[t.c].established == 1)
  }

  ghost predicate Inv(w: World) {
    && Sound(w)
    && Agreement(w.poller) && w.poller.faults == 0
    && Views(w)
    && OpenFdsDistinct(w)
    && TasksPlaced(w)
    && DispatchInv(w)
    && NamesInv(w)
    && GoneInv(w)
  }

  // ---------------------------------------------------------------- consequences

  lemma OwnedByView(w: World, c: nat)
    requires Sound(w) && TasksPlaced(w) && c < |w.conns|
    ensures Owned(w, c) <==> OwnedView(c, ViewOf(w, c))
  {
    var k := w.conns[c];
    MineHas(w.loops[k.loop].Queue(), c);
    MineHas(w.loops[0].Queue(), c);
    if OwnedView(c, ViewOf(w, c)) && !Listed(w, c) {
      var t :| Owns(t, c) && (t in ViewOf(w, c).io || t in ViewOf(w, c).main);
      assert t in w.loops[k.loop].Queue() || t in w.loops[0].Queue();
    }
  }

  /** Until connectDestroyed has run, the map or the queued destruction owns the connection. */
  lemma UndestroyedOwned(w: World, c: nat)
    requires Inv(w) && c < |w.conns| && w.conns[c].destroyed == 0
    ensures Owned(w, c)
  {
    OwnedByView(w, c);
    var v := ViewOf(w, c);
    assert ViewInv(c, v);
    if !v.listed {
      assert Destroy(c) in multiset(v.io);
      assert Owns(Destroy(c), c);
    }
  }

  lemma MappedOwned(w: World, c: nat)
    requires Inv(w) && c < |w.conns| && Mapped(w.poller, c)
    ensures Owned(w, c) && w.conns[c].established == 1 && w.conns[c].destroyed == 0
  {
    assert ViewInv(c, ViewOf(w, c));
    UndestroyedOwned(w, c);
  }

  /** No other channel sits under the fd of an owned connection. */
  lemma OwnedKeyFree(w: World, c: nat)
    requires Inv(w) && c < |w.conns| && Owned(w, c)
    ensures KeyFree(w.poller, c) && OthersInv(w, c)
  {
    forall d | 0 <= d < |w.conns| && d != c && Mapped(w.poller, d)
      ensures w.poller.chans[d].key != w.poller.chans[c].key
    {
      MappedOwned(w, d);
      assert ViewInv(c, ViewOf(w, c)) && ViewInv(d, ViewOf(w, d));
    }
    var key := w.poller.chans[c].key;
    if key in w.poller.kernel {
      var d := w.poller.kernel[key].chan;
      assert Registered(w.poller, d);
      assert Mapped(w.poller, d);
    }
    if key in w.poller.channels {
      assert Mapped(w.poller, w.poller.channels[key]);
    }
  }

  // ---------------------------------------------------------------- framing

  /** Only the channel of `c` and the entry of channels_ under its fd may have changed. */
  ghost predicate PollerFrame(p: Poller<Slot, nat>, p': Poller<Slot, nat>, c: nat)
    requires c in p.chans
  {
    && p'.chans.Keys == p.chans.Keys
    && (forall d <- p.chans :: d != c ==> p'.chans[d] == p.chans[d])
    && p'.chans[c].key == p.chans[c].key
    && (p'.channels == p.channels
        || p'.channels == p.channels[p.chans[c].key := c]
        || p'.channels == p.channels - {p.chans[c].key})
  }

  /** `w'` differs from `w` in what concerns connection `c` and in loop phases only. */
  ghost predicate Frame(w: World, w': World, c: nat)
    requires Sound(w) && Sound(w') && c < |w.conns|
  {
    && w'.server == w.server && w'.addr == w.addr
    && |w'.conns| == |w.conns| && |w'.loops| == |w.loops|
    && (forall d | 0 <= d < |w.conns| && d != c :: w'.conns[d] == w.conns[d])
    && w'.conns[c].loop == w.conns[c].loop && w'.conns[c].fd == w.conns[c].fd
    && (w'.names == w.names || w'.names == w.names - {Name(w, c)})
    && PollerFrame(w.poller, w'.poller, c)
    && (forall l, d | 0 <= l < |w.loops| && 0 <= d < |w.conns| && d != c ::
          Mine(w'.loops[l].Queue(), d) == Mine(w.loops[l].Queue(), d))
  }

  /** No other channel of channels_ sits in the slot of `c`. */
  ghost predicate SlotFree(w: World, c: nat)
    requires Sound(w) && c < |w.conns|
  {
    forall d | 0 <= d < |w.conns| && d != c && Mapped(w.poller, d) ::
      w.poller.chans[d].key != w.poller.chans[c].key
  }

  /** The invariant as far as the connections other than `c` are concerned. */
  ghost predicate OthersInv(w: World, c: nat) {
    && Sound(w) && c < |w.conns|
    && NamesInv(w) && OpenFdsDistinct(w) && TasksPlaced(w) && SlotFree(w, c)
    && forall d | 0 <= d < |w.conns| && d != c :: ViewInv(d, ViewOf(w, d))
  }

  lemma FrameMapped(w: World, w': World, c: nat, d: nat)
    requires Sound(w) && Sound(w') && c < |w.conns| && SlotFree(w, c) && Frame(w, w', c)
    requires d < |w.conns| && d != c
    ensures Mapped(w'.poller, d) <==> Mapped(w.poller, d)
  {
    assert w'.poller.chans[d] == w.poller.chans[d];
  }

  lemma FrameListed(w: World, w': World, c: nat, d: nat)
    requires w.addr.Valid() && c < INT_MAX && d < INT_MAX && d != c
    requires w'.server == w.server && w'.addr == w.addr
    requires w'.names == w.names || w'.names == w.names - {Name(w, c)}
    ensures Listed(w', d) <==> Listed(w, d)
  {
    NamesDistinct(w.server, w.addr, c + 1, d + 1);
  }

  lemma FrameViews(w: World, w': World, c: nat, d: nat)
    requires OthersInv(w, c) && Sound(w') && Frame(w, w', c)
    requires d < |w.conns| && d != c
    ensures ViewOf(w', d) == ViewOf(w, d)
  {
    FrameMapped(w, w', c, d);
    FrameListed(w, w', c, d);
    var l := w.conns[d].loop;
    assert w'.conns[d] == w.conns[d] && w'.poller.chans[d] == w.poller.chans[d];
    assert Mine(w'.loops[l].Queue(), d) == Mine(w.loops[l].Queue(), d);
    assert Mine(w'.loops[0].Queue(), d) == Mine(w.loops[0].Queue(), d);
  }

  lemma FrameOther(w: World, w': World, c: nat, d: nat)
    requires OthersInv(w, c) && Sound(w') && Frame(w, w', c) && TasksPlaced(w')
    requires d < |w.conns| && d != c
    ensures ViewInv(d, ViewOf(w', d)) && (Owned(w', d) <==> Owned(w, d))
  {
    assert ViewInv(d, ViewOf(w, d));
    hide ViewInv, Owned, Mapped, OpenFdsDistinct, SlotFree;
    FrameViews(w, w', c, d);
    OwnedByView(w, d);
    OwnedByView(w', d);
  }

  /** A step inside the frame of an owned connection keeps what is said about all the others. */
  lemma FrameKeeps(w: World, w': World, c: nat)
    requires OthersInv(w, c) && Owned(w, c) && Sound(w') && Frame(w, w', c)
    requires ViewInv(c, ViewOf(w', c)) && TasksPlaced(w')
    ensures Views(w') && OpenFdsDistinct(w') && NamesInv(w')
  {
    hide ViewInv, Owned, ViewOf, TasksPlaced, PollerFrame, Mine;
    forall d | 0 <= d < |w.conns| && d != c
      ensures ViewInv(d, ViewOf(w', d)) && (Owned(w', d) <==> Owned(w, d))
    {
      FrameOther(w, w', c, d);
    }
    assert forall n <- w'.names :: n in w.names && Name(w', w.names[n]) == Name(w, w.names[n]);
  }

  lemma PostQueue(w: World, l: nat, t: Task)
    requires l < |w.loops|
    ensures forall i, d: nat | 0 <= i < |w.loops| ::
              Mine(Post(w, l, t).loops[i].Queue(), d)
              == Mine(w.loops[i].Queue(), d) + (if i == l && t.c == d then [t] else [])
  {
    forall i, d: nat | 0 <= i < |w.loops|
      ensures Mine(Post(w, l, t).loops[i].Queue(), d)
              == Mine(w.loops[i].Queue(), d) + (if i == l && t.c == d then [t] else [])
    {
      if i == l {
        assert Post(w, l, t).loops[i].Queue() == w.loops[i].Queue() + [t];
        MineConcat(w.loops[i].Queue(), [t], d);
        assert Mine([t], d) == (if t.c == d then [t] else []) + Mine([], d);
      }
    }
  }

  lemma TakeQueue(w: World, l: nat)
    requires Sound(w) && l < |w.loops| && w.loops[l].batch != []
    ensures var t := w.loops[l].batch[0];
            forall i, d: nat | 0 <= i < |w.loops| ::
              Mine(w.loops[i].Queue(), d)
              == (if i == l && t.c == d then [t] else []) + Mine(TakeTask(w, l).loops[i].Queue(), d)
  {
    var t := w.loops[l].batch[0];
    assert w.loops[l].Queue()[0] == t;
    assert w.loops[l].Queue()[1..] == TakeTask(w, l).loops[l].Queue();
  }
}
