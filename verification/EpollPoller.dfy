/** The EpollPoller and Channel objects, proved against Registry and Dispatch. */
module EpollPollers {
  import opened Registry
  import opened Dispatch

  /** One element of the array epoll_wait fills: the pointer given at registration, and what is ready. */
  datatype EpollEvent = EpollEvent(chan: Channel, events: Mask)

  class Channel {
    const fd: nat
    const poller: EpollPoller
    var events: Mask
    var revents: Mask
    var index: Index
    /** the weak pointer to the owner, named by a number, once there is one */
    var tie: nat
    var tied: bool

    constructor (poller: EpollPoller, fd: nat)
      modifies poller`attached
      ensures this.poller == poller && this.fd == fd && revents == NO_EVENT && !tied
      ensures this in poller.attached
      ensures var was := old(poller.View());
              poller.View() == was.(chans := was.chans[this := Chan(fd, NO_EVENT, New)])
    {
      this.poller, this.fd := poller, fd;
      events, revents, index, tie, tied := NO_EVENT, NO_EVENT, New, 0, false;
      new;
      ghost var was := poller.View();
      poller.attached := poller.attached + {this};
      assert poller.View().chans == was.chans[this := Chan(fd, NO_EVENT, New)];
    }

    method Tie(owner: nat)
      modifies this`tie, this`tied
      ensures tied && tie == owner
    {
      tie := owner;
      tied := true;
    }

    predicate IsWriting()
      reads this
    {
      events * WRITE_EVENT != {}
    }

    method SetInterest(interest: Mask)
      requires this in poller.attached
      modifies this`events, this`index, poller`channels, poller`kernel, poller`faults
      ensures poller.View() == SetEvents(old(poller.View()), this, interest)
      ensures old(Agreement(poller.View()) && KeyFree(poller.View(), this)) ==>
                Agreement(poller.View()) && poller.faults == old(poller.faults)
    {
      hide Agreement, KeyFree, Registry.UpdateChannel;
      ghost var before := poller.View();
      if Agreement(before) && KeyFree(before, this) {
        SetEventsAgrees(before, this, interest);
      }
      events := interest;
      assert poller.View().chans == before.chans[this := before.chans[this].(events := interest)];
      poller.UpdateChannel(this);
    }

    method EnableReading()
      requires this in poller.attached
      modifies this`events, this`index, poller`channels, poller`kernel, poller`faults
      ensures poller.View() == Registry.EnableReading(old(poller.View()), this)
    {
      SetInterest(events + READ_EVENT);
    }

    method EnableWriting()
      requires this in poller.attached
      modifies this`events, this`index, poller`channels, poller`kernel, poller`faults
      ensures poller.View() == Registry.EnableWriting(old(poller.View()), this)
    {
      SetInterest(events + WRITE_EVENT);
    }

    method DisableWriting()
      requires this in poller.attached
      modifies this`events, this`index, poller`channels, poller`kernel, poller`faults
      ensures poller.View() == Registry.DisableWriting(old(poller.View()), this)
    {
      SetInterest(events - WRITE_EVENT);
    }

    method DisableAll()
      requires this in poller.attached
      modifies this`events, this`index, poller`channels, poller`kernel, poller`faults
      ensures poller.View() == Registry.DisableAll(old(poller.View()), this)
    {
      SetInterest(NO_EVENT);
    }

    method Remove()
      requires this in poller.attached
      modifies this`index, poller`channels, poller`kernel, poller`faults
      ensures poller.View() == RemoveChannel(old(poller.View()), this)
      ensures old(Agreement(poller.View()) && KeyFree(poller.View(), this)) ==>
                Agreement(poller.View()) && poller.faults == old(poller.faults)
    {
      hide Agreement, KeyFree, Registry.RemoveChannel;
      ghost var before := poller.View();
      if Agreement(before) && KeyFree(before, this) {
        RemoveAgrees(before, this);
      }
      poller.RemoveChannel(this);
    }

    /** tie_.lock() yields the owner exactly if it is one of the objects still `alive`. */
    method HandleEvent(alive: set<nat>) returns (calls: seq<Callback>)
      ensures tied && tie !in alive ==> calls == []
      ensures !tied || tie in alive ==> calls == Callbacks(revents) && Exactly(calls, revents)
    {
      calls := [];
      if tied {
        if tie in alive {
          calls := HandleEventWithGuard();
        }
      } else {
        calls := HandleEventWithGuard();
      }
    }

    method HandleEventWithGuard() returns (calls: seq<Callback>)
      ensures calls == Callbacks(revents) && Exactly(calls, revents)
    {
      CallbacksExact(revents);
      calls := [];
      if Hup in revents && In !in revents {
        calls := calls + [CloseCallback];
      }
      if Err in revents {
        calls := calls + [ErrorCallback];
      }
      assert In in revents ==> In in revents * READ_EVENT;
      assert Pri in revents ==> Pri in revents * READ_EVENT;
      if revents * READ_EVENT != {} {
        calls := calls + [ReadCallback];
      }
      if Out in revents {
        calls := calls + [WriteCallback];
      }
    }
  }

  class EpollPoller {
    var channels: map<nat, Channel>
    /** the kernel's epoll set, which the program only changes through epoll_ctl */
    var kernel: map<nat, Entry<Channel>>
    var faults: nat
    /** the channels whose owner loop has this poller */
    ghost var attached: set<Channel>

    ghost function View(): (p: Poller<nat, Channel>)
      reads this, attached
      ensures p.chans.Keys == attached
    {
      Poller(channels, kernel, map c | c in attached :: Chan(c.fd, c.events, c.index), faults)
    }

    constructor ()
      ensures View() == Poller(map[], map[], map[], 0)
    {
      channels, kernel, faults, attached := map[], map[], 0, {};
    }

    method Update(op: Op, channel: Channel)
      requires channel in attached
      modifies this`kernel, this`faults
      ensures View() == Registry.Update(old(View()), op, channel)
    {
      if !Legal(kernel, op, channel.fd) {
        faults := faults + 1;
      } else if op.Del? {
        kernel := kernel - {channel.fd};
      } else {
        kernel := kernel[channel.fd := Entry(channel, channel.events)];
      }
    }

    /** Channel::setIndex on a channel of this poller. */
    method SetIndexOf(channel: Channel, index: Index)
      requires channel in attached
      modifies channel`index
      ensures View() == SetIndex(old(View()), channel, index)
      ensures channel.index == index
    {
      ghost var before := View();
      channel.index := index;
      assert View().chans == before.chans[channel := before.chans[channel].(index := index)];
    }

    method UpdateChannel(channel: Channel)
      requires channel in attached
      modifies this`channels, this`kernel, this`faults, channel`index
      ensures View() == Registry.UpdateChannel(old(View()), channel)
    {
      hide Registry.Update;
      var index := channel.index;
      if index == New || index == Deleted {
        if index == New {
          channels := channels[channel.fd := channel];
          assert View().chans == old(View()).chans;
        }
        SetIndexOf(channel, Added);
        Update(Add, channel);
      } else if channel.events == NO_EVENT {
        SetIndexOf(channel, New);
        Update(Del, channel);
      } else {
        Update(Mod, channel);
      }
    }

    method RemoveChannel(channel: Channel)
      requires channel in attached
      modifies this`channels, this`kernel, this`faults, channel`index
      ensures View() == Registry.RemoveChannel(old(View()), channel)
    {
      hide Registry.Update;
      channels := channels - {channel.fd};
      assert View().chans == old(View()).chans;
      if channel.index == Added {
        Update(Del, channel);
      }
      SetIndexOf(channel, New);
    }

    /** The reported channels in order, each told what is ready; the kernel reports a channel once. */
    method FillActiveChannels(ready: seq<EpollEvent>) returns (active: seq<Channel>)
      requires forall i, j | 0 <= i < j < |ready| :: ready[i].chan != ready[j].chan
      modifies (set e <- ready :: e.chan)`revents
      ensures |active| == |ready|
      ensures forall i | 0 <= i < |ready| :: active[i] == ready[i].chan && active[i].revents == ready[i].events
    {
      active := [];
      for i := 0 to |ready|
        invariant |active| == i
        invariant forall k | 0 <= k < i :: active[k] == ready[k].chan && active[k].revents == ready[k].events
      {
        ready[i].chan.revents := ready[i].events;
        active := active + [ready[i].chan];
      }
    }
  }
}
