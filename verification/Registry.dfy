/** What an EpollPoller knows and what the kernel knows, as values. */
module Registry {

  datatype Event = In | Pri | Out | Hup | Err

  type Mask = set<Event>

  const NO_EVENT: Mask := {}
  const READ_EVENT: Mask := {In, Pri}
  const WRITE_EVENT: Mask := {Out}

  /** Channel::index_: kNew, kAdded and kDeleted. */
  datatype Index = New | Added | Deleted

  /** The part of a Channel the poller works on; `key` is its fd. */
  datatype Chan<K> = Chan(key: K, events: Mask, index: Index) {
    predicate IsWriting() { events * WRITE_EVENT != {} }
    predicate IsNoneEvent() { events == NO_EVENT }
  }

  datatype Op = Add | Mod | Del

  /** One registration in the kernel's set: the raw channel pointer and the mask. */
  datatype Entry<C> = Entry(chan: C, mask: Mask)

  /** `channels` is channels_, `kernel` the epoll set, `faults` counts refused epoll_ctl calls. */
  datatype Poller<K(==), C(==)> =
    Poller(channels: map<K, C>, kernel: map<K, Entry<C>>, chans: map<C, Chan<K>>, faults: nat)

  /** epoll_ctl(2): ADD needs an absent fd, MOD and DEL a present one. */
  predicate Legal<K, C>(kernel: map<K, Entry<C>>, op: Op, key: K) {
    if op.Add? then key !in kernel else key in kernel
  }

  function Update<K, C>(p: Poller<K, C>, op: Op, c: C): Poller<K, C>
    requires c in p.chans
  {
    var ch := p.chans[c];
    if !Legal(p.kernel, op, ch.key) then p.(faults := p.faults + 1)
    else if op.Del? then p.(kernel := p.kernel - {ch.key})
    else p.(kernel := p.kernel[ch.key := Entry(c, ch.events)])
  }

  /**
   * epoll_ctl on the fd of `c`: an ADD of a present fd, or a MOD or DEL of an absent one, is refused
   * and counted; otherwise ADD and MOD leave the channel with its interest, DEL leaves nothing.
   */
  lemma UpdateEffect<K, C>(p: Poller<K, C>, op: Op, c: C)
    requires c in p.chans
    ensures var r := Update(p, op, c);
            var key := p.chans[c].key;
            && r.channels == p.channels && r.chans == p.chans
            && (op == Add && key in p.kernel ==> r == p.(faults := p.faults + 1))
            && (op != Add && key !in p.kernel ==> r == p.(faults := p.faults + 1))
            && ((op == Add) != (key in p.kernel) ==>
                  && r.faults == p.faults
                  && (op == Del ==> key !in r.kernel)
                  && (op != Del ==> key in r.kernel && r.kernel[key] == Entry(c, p.chans[c].events))
                  && (forall k <- p.kernel :: k != key ==> k in r.kernel && r.kernel[k] == p.kernel[k])
                  && (forall k <- r.kernel :: k == key || k in p.kernel))
  {
  }

  function SetIndex<K, C>(p: Poller<K, C>, c: C, index: Index): Poller<K, C>
    requires c in p.chans
  {
    p.(chans := p.chans[c := p.chans[c].(index := index)])
  }

  function UpdateChannel<K, C>(p: Poller<K, C>, c: C): Poller<K, C>
    requires c in p.chans
  {
    var ch := p.chans[c];
    if ch.index == New || ch.index == Deleted then
      var q := if ch.index == New then p.(channels := p.channels[ch.key := c]) else p;
      Update(SetIndex(q, c, Added), Add, c)
    else if ch.IsNoneEvent() then
      Update(SetIndex(p, c, New), Del, c)
    else
      Update(p, Mod, c)
  }

  function RemoveChannel<K, C>(p: Poller<K, C>, c: C): Poller<K, C>
    requires c in p.chans
  {
    var ch := p.chans[c];
    var q := p.(channels := p.channels - {ch.key});
    SetIndex(if ch.index == Added then Update(q, Del, c) else q, c, New)
  }

  /** A change of interest: every such change is pushed to the poller. */
  function SetEvents<K, C>(p: Poller<K, C>, c: C, events: Mask): (r: Poller<K, C>)
    requires c in p.chans
    ensures r.chans.Keys == p.chans.Keys
  {
    UpdateChannel(p.(chans := p.chans[c := p.chans[c].(events := events)]), c)
  }

  function EnableReading<K, C>(p: Poller<K, C>, c: C): Poller<K, C>
    requires c in p.chans
  {
    SetEvents(p, c, p.chans[c].events + READ_EVENT)
  }

  function EnableWriting<K, C>(p: Poller<K, C>, c: C): Poller<K, C>
    requires c in p.chans
  {
    SetEvents(p, c, p.chans[c].events + WRITE_EVENT)
  }

  function DisableWriting<K, C>(p: Poller<K, C>, c: C): Poller<K, C>
    requires c in p.chans
  {
    SetEvents(p, c, p.chans[c].events - WRITE_EVENT)
  }

  function DisableAll<K, C>(p: Poller<K, C>, c: C): Poller<K, C>
    requires c in p.chans
  {
    SetEvents(p, c, NO_EVENT)
  }

  /** What each operation makes of the interest, event by event. */
  lemma InterestBits<K, C>(p: Poller<K, C>, c: C, e: Event)
    requires c in p.chans
    ensures e in EnableReading(p, c).chans[c].events <==> e in p.chans[c].events || e == In || e == Pri
    ensures e in EnableWriting(p, c).chans[c].events <==> e in p.chans[c].events || e == Out
    ensures e in DisableWriting(p, c).chans[c].events <==> e in p.chans[c].events && e != Out
    ensures e !in DisableAll(p, c).chans[c].events
    ensures p.chans[c].IsWriting() <==> Out in p.chans[c].events
  {
    hide UpdateChannel;
    EventsSet(p, c, p.chans[c].events + READ_EVENT);
    EventsSet(p, c, p.chans[c].events + WRITE_EVENT);
    EventsSet(p, c, p.chans[c].events - WRITE_EVENT);
    EventsSet(p, c, NO_EVENT);
    assert Out in p.chans[c].events ==> Out in p.chans[c].events * WRITE_EVENT;
  }

  lemma EventsSet<K, C>(p: Poller<K, C>, c: C, events: Mask)
    requires c in p.chans
    ensures SetEvents(p, c, events).chans[c].events == events
  {
  }

  // ---------------------------------------------------------------- agreement

  /** The channel is in the kernel's set under its own fd. */
  predicate Registered<K, C>(p: Poller<K, C>, c: C)
    requires c in p.chans
  {
    p.chans[c].key in p.kernel && p.kernel[p.chans[c].key].chan == c
  }

  predicate Mapped<K, C>(p: Poller<K, C>, c: C)
    requires c in p.chans
  {
    p.chans[c].key in p.channels && p.channels[p.chans[c].key] == c
  }

  /** The poller's bookkeeping tells the truth about the kernel's set. */
  ghost predicate Agreement<K, C>(p: Poller<K, C>) {
    && (forall key <- p.kernel ::
          && p.kernel[key].chan in p.chans
          && p.chans[p.kernel[key].chan].key == key
          && p.kernel[key].mask == p.chans[p.kernel[key].chan].events)
    && (forall c <- p.chans :: p.chans[c].index == Added <==> Registered(p, c))
    && (forall c <- p.chans :: p.chans[c].index != Deleted)
    && (forall c <- p.chans :: Registered(p, c) ==> Mapped(p, c))
    && (forall key <- p.channels :: p.channels[key] in p.chans && p.chans[p.channels[key]].key == key)
  }

  /** Nothing else sits under the fd of `c`: what distinct open fds give. */
  ghost predicate KeyFree<K, C>(p: Poller<K, C>, c: C)
    requires c in p.chans
  {
    var key := p.chans[c].key;
    && (key in p.kernel ==> p.kernel[key].chan == c)
    && (key in p.channels ==> p.channels[key] == c)
  }

  /** ADD for a new channel, DEL for a registered one that asks for nothing, MOD otherwise; never refused. */
  lemma SetEventsShape<K, C>(p: Poller<K, C>, c: C, events: Mask)
    requires c in p.chans && Agreement(p) && KeyFree(p, c)
    ensures var key := p.chans[c].key;
            SetEvents(p, c, events) == (
              if p.chans[c].index == Added && events == NO_EVENT then
                Poller(p.channels[key := c], p.kernel - {key}, p.chans[c := Chan(key, events, New)], p.faults)
              else
                Poller(p.channels[key := c], p.kernel[key := Entry(c, events)],
                       p.chans[c := Chan(key, events, Added)], p.faults))
  {
    var key := p.chans[c].key;
    assert p.chans[c].index == Added ==> p.channels[key := c] == p.channels by {
      assert Registered(p, c) ==> Mapped(p, c);
    }
    assert p.chans[c].index == Added <==> key in p.kernel;
  }

  lemma AgreedNotDeleted<K, C>(p: Poller<K, C>, c: C)
    requires Agreement(p) && c in p.chans
    ensures p.chans[c].index != Deleted
  {
  }

  lemma EntryAgrees<K, C>(p: Poller<K, C>, c: C, events: Mask)
    requires c in p.chans && Agreement(p) && KeyFree(p, c)
    ensures var key := p.chans[c].key;
            Agreement(Poller(p.channels[key := c], p.kernel[key := Entry(c, events)],
                             p.chans[c := Chan(key, events, Added)], p.faults))
  {
  }

  lemma DropAgrees<K, C>(p: Poller<K, C>, c: C)
    requires c in p.chans && Agreement(p) && KeyFree(p, c)
    ensures var key := p.chans[c].key;
            Agreement(Poller(p.channels[key := c], p.kernel - {key}, p.chans[c := Chan(key, NO_EVENT, New)], p.faults))
  {
  }

  lemma SetEventsAgrees<K, C>(p: Poller<K, C>, c: C, events: Mask)
    requires c in p.chans && Agreement(p) && KeyFree(p, c)
    ensures var r := SetEvents(p, c, events);
            && Agreement(r) && r.faults == p.faults
            && r.chans[c].events == events
            && r.chans[c].key == p.chans[c].key
            && (r.chans[c].index == Added <==> p.chans[c].index == New || events != NO_EVENT)
            && r.channels == p.channels[p.chans[c].key := c]
            && (forall d <- p.chans :: d != c ==> r.chans[d] == p.chans[d])
  {
    hide SetEvents, Agreement, KeyFree;
    SetEventsShape(p, c, events);
    EntryAgrees(p, c, events);
    DropAgrees(p, c);
    AgreedNotDeleted(p, c);
  }

  lemma RemoveAgrees<K, C>(p: Poller<K, C>, c: C)
    requires c in p.chans && Agreement(p) && KeyFree(p, c)
    ensures var r := RemoveChannel(p, c);
            && Agreement(r) && r.faults == p.faults
            && r.chans[c] == p.chans[c].(index := New)
            && r.channels == p.channels - {p.chans[c].key}
            && (forall d <- p.chans :: d != c ==> r.chans[d] == p.chans[d])
            && r.chans.Keys == p.chans.Keys
  {
  }

  /** Operations on one channel leave the others alone, whatever state the poller is in. */
  lemma ChansLeft<K, C>(p: Poller<K, C>, c: C, events: Mask)
    requires c in p.chans
    ensures forall d <- p.chans :: d != c ==> SetEvents(p, c, events).chans[d] == p.chans[d]
    ensures RemoveChannel(p, c).chans.Keys == p.chans.Keys
    ensures forall d <- p.chans :: d != c ==> RemoveChannel(p, c).chans[d] == p.chans[d]
  {
  }

  // ---------------------------------------------------------------- operation sequences

  datatype Act<C> = Interest(c: C, events: Mask) | Withdraw(c: C)

  function Perform<K, C>(p: Poller<K, C>, a: Act<C>): (r: Poller<K, C>)
    requires a.c in p.chans
    ensures r.chans.Keys == p.chans.Keys
  {
    match a
    case Interest(c, events) => SetEvents(p, c, events)
    case Withdraw(c) => RemoveChannel(p, c)
  }

  function PerformAll<K, C>(p: Poller<K, C>, acts: seq<Act<C>>): (r: Poller<K, C>)
    requires forall a <- acts :: a.c in p.chans
    ensures r.chans.Keys == p.chans.Keys
  {
    if acts == [] then p else Perform(PerformAll(p, acts[..|acts| - 1]), acts[|acts| - 1])
  }

  ghost predicate DistinctKeys<K, C>(p: Poller<K, C>) {
    forall c <- p.chans, d <- p.chans :: c != d ==> p.chans[c].key != p.chans[d].key
  }

  /** No channel has been pushed to the poller yet. */
  ghost predicate Fresh<K, C>(p: Poller<K, C>) {
    && p.channels == map[] && p.kernel == map[] && p.faults == 0
    && (forall c <- p.chans :: p.chans[c].index == New && p.chans[c].events == NO_EVENT)
  }

  /**
   * An account of registration that never looks at index_ or channels_: a change of interest
   * registers an absent channel whatever the mask is, and drops a present one only for the empty mask.
   */
  function Expected<C(==)>(acts: seq<Act<C>>, c: C): bool {
    if acts == [] then false else
    var a := acts[|acts| - 1];
    var before := Expected(acts[..|acts| - 1], c);
    if a.c != c then before
    else if a.Withdraw? then false
    else !before || a.events != NO_EVENT
  }

  /** The mask last asked for, whether or not the channel is registered. */
  function Wanted<C(==)>(acts: seq<Act<C>>, c: C): Mask {
    if acts == [] then NO_EVENT else
    var a := acts[|acts| - 1];
    if a.c == c && a.Interest? then a.events else Wanted(acts[..|acts| - 1], c)
  }

  /** `r` is what `acts` ask for, from a poller with the channels of `p`. */
  ghost predicate Tells<K, C>(p: Poller<K, C>, acts: seq<Act<C>>, r: Poller<K, C>) {
    && r.chans.Keys == p.chans.Keys
    && forall c <- p.chans ::
         && r.chans[c].key == p.chans[c].key
         && (Registered(r, c) <==> Expected(acts, c))
         && r.chans[c].events == Wanted(acts, c)
  }

  lemma DistinctFree<K, C>(p: Poller<K, C>, q: Poller<K, C>, c: C)
    requires DistinctKeys(p) && Agreement(q) && q.chans.Keys == p.chans.Keys && c in p.chans
    requires forall d <- p.chans :: q.chans[d].key == p.chans[d].key
    ensures KeyFree(q, c)
  {
    var key := q.chans[c].key;
    if key in q.channels {
      assert q.chans[q.channels[key]].key == p.chans[c].key;
    }
  }

  lemma AgreedIndex<K, C>(r: Poller<K, C>)
    requires Agreement(r)
    ensures forall c <- r.chans :: (Registered(r, c) <==> r.chans[c].index == Added) && r.chans[c].index != Deleted
  {
  }

  /** In agreement, a registered entry holds the channel's own interest. */
  lemma OwnEntry<K, C>(r: Poller<K, C>, c: C)
    requires Agreement(r) && c in r.chans && Registered(r, c)
    ensures r.chans[c].key in r.kernel && r.kernel[r.chans[c].key] == Entry(c, r.chans[c].events)
  {
  }

  lemma StepTells<K, C>(p: Poller<K, C>, acts: seq<Act<C>>, q: Poller<K, C>, r: Poller<K, C>)
    requires acts != [] && Tells(p, acts[..|acts| - 1], q) && Agreement(q) && Agreement(r)
    requires acts[|acts| - 1].c in q.chans && r.chans.Keys == q.chans.Keys
    requires var a := acts[|acts| - 1];
             && (forall d <- q.chans :: d != a.c ==> r.chans[d] == q.chans[d])
             && r.chans[a.c].key == q.chans[a.c].key
             && (if a.Interest? then
                   && r.chans[a.c].events == a.events
                   && (r.chans[a.c].index == Added <==> q.chans[a.c].index == New || a.events != NO_EVENT)
                 else r.chans[a.c] == q.chans[a.c].(index := New))
    ensures Tells(p, acts, r)
  {
    hide Agreement, Registered;
    AgreedIndex(q);
    AgreedIndex(r);
  }

  /**
   * Over every sequence of operations on channels with distinct fds, every epoll_ctl call is
   * legal, kDeleted is never reached, and the kernel's set is exactly what the operations ask for.
   */
  lemma {:induction false} PollerAgreesWithKernel<K, C>(p: Poller<K, C>, acts: seq<Act<C>>)
    requires Fresh(p) && DistinctKeys(p) && forall a <- acts :: a.c in p.chans
    ensures var r := PerformAll(p, acts);
            && Agreement(r) && r.faults == 0
            && (forall c <- p.chans ::
                  && r.chans[c].key == p.chans[c].key
                  && (Registered(r, c) <==> Expected(acts, c))
                  && (Registered(r, c) ==> r.kernel[p.chans[c].key] == Entry(c, Wanted(acts, c)))
                  && r.chans[c].events == Wanted(acts, c))
  {
    hide Agreement, Expected, Wanted, PerformAll;
    PerformTells(p, acts);
    var r := PerformAll(p, acts);
    forall c <- p.chans ensures Registered(r, c) ==> r.kernel[p.chans[c].key] == Entry(c, Wanted(acts, c)) {
      if Registered(r, c) {
        OwnEntry(r, c);
      }
    }
  }

  lemma {:induction false} PerformTells<K, C>(p: Poller<K, C>, acts: seq<Act<C>>)
    requires Fresh(p) && DistinctKeys(p) && forall a <- acts :: a.c in p.chans
    ensures var r := PerformAll(p, acts); Agreement(r) && r.faults == 0 && Tells(p, acts, r)
  {
    if acts == [] {
      FreshTells(p);
    } else {
      hide Agreement, KeyFree, DistinctKeys, Fresh, SetEvents, RemoveChannel, Expected, Wanted, Registered;
      var front, a := acts[..|acts| - 1], acts[|acts| - 1];
      PerformTells(p, front);
      var q := PerformAll(p, front);
      DistinctFree(p, q, a.c);
      if a.Interest? {
        SetEventsAgrees(q, a.c, a.events);
      } else {
        RemoveAgrees(q, a.c);
      }
      StepTells(p, acts, q, PerformAll(p, acts));
    }
  }

  lemma FreshTells<K, C>(p: Poller<K, C>)
    requires Fresh(p)
    ensures Agreement(p) && p.faults == 0 && Tells(p, [], p)
  {
  }

  function Repeat<C>(a: Act<C>, n: nat): seq<Act<C>> {
    seq(n, _ => a)
  }

  /**
   * disableAll is not idempotent: called on an unregistered channel it registers it again with an
   * empty mask, so after n calls on a registered channel it is registered exactly when n is even.
   */
  lemma {:induction false} DisableAllToggles<C>(acts: seq<Act<C>>, c: C, n: nat)
    requires Expected(acts, c)
    ensures Expected(acts + Repeat(Interest(c, NO_EVENT), n), c) <==> n % 2 == 0
  {
    var all := acts + Repeat(Interest(c, NO_EVENT), n);
    if n == 0 {
      assert all == acts;
    } else {
      assert all[..|all| - 1] == acts + Repeat(Interest(c, NO_EVENT), n - 1);
      DisableAllToggles(acts, c, n - 1);
    }
  }
}
