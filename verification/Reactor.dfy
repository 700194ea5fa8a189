/** Channel, poller and event loop as the objects they are: each method is proved to do to the
    fields what the functions on values say. */
module Reactor {
  import opened Kernel
  import opened PollSpec
  import opened LoopSpec

  class Channel {
    const loop: EventLoop
    const fd: int
    var events: Mask
    var revents: Mask
    var index: Index

    constructor (loop: EventLoop, fd: int)
      ensures this.loop == loop && this.fd == fd
      ensures View() == Chan(fd, NONE_EVENT, New) && revents == NONE_EVENT
    {
      this.loop, this.fd := loop, fd;
      events, revents, index := NONE_EVENT, NONE_EVENT, New;
    }

    ghost function View(): Chan
      reads this
    {
      Chan(fd, events, index)
    }

    predicate IsNoneEvent()
      reads this
    {
      events == NONE_EVENT
    }

    predicate IsWriting()
      reads this
    {
      Out in events
    }

    method EnableReading()
      modifies this`events, this`index, loop.poller
      ensures (loop.poller.State(), View()) ==
              UpdateChannel(old(loop.poller.State()), old(View()).(events := old(events) + READ_EVENT), this)
    {
      events := events + READ_EVENT;
      Update();
    }

    method EnableWriting()
      modifies this`events, this`index, loop.poller
      ensures (loop.poller.State(), View()) ==
              UpdateChannel(old(loop.poller.State()), old(View()).(events := old(events) + WRITE_EVENT), this)
    {
      events := events + WRITE_EVENT;
      Update();
    }

    method DisableWriting()
      modifies this`events, this`index, loop.poller
      ensures (loop.poller.State(), View()) ==
              UpdateChannel(old(loop.poller.State()), old(View()).(events := old(events) - WRITE_EVENT), this)
    {
      events := events - WRITE_EVENT;
      Update();
    }

    method DisableAll()
      modifies this`events, this`index, loop.poller
      ensures (loop.poller.State(), View()) ==
              UpdateChannel(old(loop.poller.State()), old(View()).(events := NONE_EVENT), this)
    {
      events := NONE_EVENT;
      Update();
    }

    method Update()
      modifies this`index, loop.poller
      ensures (loop.poller.State(), View()) == UpdateChannel(old(loop.poller.State()), old(View()), this)
    {
      loop.poller.UpdateChannel(this);
    }

    method Remove()
      modifies this`index, loop.poller
      ensures (loop.poller.State(), View()) == RemoveChannel(old(loop.poller.State()), old(View()), this)
    {
      loop.poller.RemoveChannel(this);
    }
  }

  /** An event as epoll_wait reports it: the channel stored with the descriptor, and a mask. */
  datatype Ready = Ready(channel: Channel, revents: Mask)

  class EPOLLPoller {
    var channels: map<int, Channel>
    var epoll: map<int, Interest<Channel>>
    var fatal: bool
    var failedDel: bool

    constructor ()
      ensures State() == Poll(map[], map[], false, false)
    {
      channels, epoll, fatal, failedDel := map[], map[], false, false;
    }

    ghost function State(): Poll<Channel>
      reads this
    {
      Poll(channels, epoll, fatal, failedDel)
    }

    method Update(op: CtlOp, channel: Channel)
      modifies this
      ensures State() == Ctl(old(State()), op, channel.View(), channel)
    {
      var present := channel.fd in epoll;
      if present != (op != Add) {
        if op == Del {
          failedDel := true;
        } else {
          fatal := true;
        }
      } else if op == Del {
        epoll := epoll - {channel.fd};
      } else {
        epoll := epoll[channel.fd := Interest(channel.events, channel)];
      }
    }

    method UpdateChannel(channel: Channel)
      modifies this, channel`index
      ensures (State(), channel.View()) == PollSpec.UpdateChannel(old(State()), old(channel.View()), channel)
    {
      if channel.index == New || channel.index == Deleted {
        if channel.index == New {
          channels := channels[channel.fd := channel];
        }
        channel.index := Added;
        Update(Add, channel);
      } else if channel.IsNoneEvent() {
        Update(Del, channel);
        channel.index := Deleted;
      } else {
        Update(Mod, channel);
      }
    }

    method RemoveChannel(channel: Channel)
      modifies this, channel`index
      ensures (State(), channel.View()) == PollSpec.RemoveChannel(old(State()), old(channel.View()), channel)
    {
      channels := channels - {channel.fd};
      if channel.index == Added {
        Update(Del, channel);
      }
      channel.index := New;
    }

    /** Hands the reported events over to their channels, in order. */
    method FillActiveChannels(ready: seq<Ready>) returns (active: seq<Channel>)
      requires forall i, j :: 0 <= i < j < |ready| ==> ready[i].channel != ready[j].channel
      modifies set i | 0 <= i < |ready| :: ready[i].channel`revents
      ensures |active| == |ready|
      ensures forall i :: 0 <= i < |ready| ==> active[i] == ready[i].channel && active[i].revents == ready[i].revents
    {
      active := [];
      for i := 0 to |ready|
        invariant |active| == i
        invariant forall k :: 0 <= k < i ==> active[k] == ready[k].channel && active[k].revents == ready[k].revents
      {
        var channel := ready[i].channel;
        channel.revents := ready[i].revents;
        active := active + [channel];
      }
    }
  }

  class EventLoop {
    const poller: EPOLLPoller
    var pendingFunctors: seq<Functor<Channel>>
    var callingPendingFunctors: bool
    var wakeupCounter: nat
    var quitting: bool

    constructor ()
      ensures fresh(poller) && poller.State() == Poll(map[], map[], false, false)
      ensures State() == LoopState([], false, 0)
    {
      poller := new EPOLLPoller();
      pendingFunctors, callingPendingFunctors, wakeupCounter, quitting := [], false, 0, false;
    }

    ghost function State(): LoopState<Functor<Channel>>
      reads this
    {
      LoopState(pendingFunctors, callingPendingFunctors, wakeupCounter)
    }

    /** The eventfd write: it fails, harmlessly, when the counter is already at its limit. */
    method Wakeup()
      modifies this`wakeupCounter
      ensures State() == LoopSpec.Wakeup(old(State()))
      ensures 0 < wakeupCounter && old(wakeupCounter) <= wakeupCounter
    {
      if wakeupCounter < EVENTFD_MAX {
        wakeupCounter := wakeupCounter + 1;
      }
    }

    /** The eventfd read: it takes the whole counter. */
    method HandleRead()
      modifies this`wakeupCounter
      ensures State() == old(State()).(counter := 0)
    {
      wakeupCounter := 0;
    }

    /** Another thread must also wake the loop for it to notice. */
    method Quit(inLoopThread: bool)
      modifies this`quitting, this`wakeupCounter
      ensures quitting
      ensures State() == if inLoopThread then old(State()) else LoopSpec.Wakeup(old(State()))
      ensures !inLoopThread ==> 0 < wakeupCounter
    {
      quitting := true;
      if !inLoopThread {
        Wakeup();
      }
    }

    method QueueInLoop(cb: Functor<Channel>, inLoopThread: bool)
      modifies this`pendingFunctors, this`wakeupCounter
      ensures State() == Queue(old(State()), cb, inLoopThread)
      ensures pendingFunctors == old(pendingFunctors) + [cb] && callingPendingFunctors == old(callingPendingFunctors)
      ensures !inLoopThread || callingPendingFunctors ==> 0 < wakeupCounter && old(wakeupCounter) <= wakeupCounter
      ensures inLoopThread && !callingPendingFunctors ==> wakeupCounter == old(wakeupCounter)
    {
      pendingFunctors := pendingFunctors + [cb];
      if !inLoopThread || callingPendingFunctors {
        Wakeup();
      }
    }

    /** Runs the functors that were pending at the swap, each once and in order, and leaves what
        they queued for the next round. Functor i is any code that queues queued(i). */
    method DoPendingFunctors(queued: nat -> seq<Functor<Channel>>) returns (ran: seq<Functor<Channel>>)
      modifies this
      ensures ran == old(pendingFunctors)
      ensures pendingFunctors == QueuedBy(queued, |ran|) && !callingPendingFunctors
      ensures pendingFunctors != [] ==> 0 < wakeupCounter
      ensures pendingFunctors == [] ==> wakeupCounter == old(wakeupCounter)
    {
      ran := [];
      callingPendingFunctors := true;
      var functors := pendingFunctors;
      pendingFunctors := [];
      for i := 0 to |functors|
        invariant ran == functors[..i] && callingPendingFunctors
        invariant pendingFunctors == QueuedBy(queued, i)
        invariant pendingFunctors != [] ==> 0 < wakeupCounter
        invariant pendingFunctors == [] ==> wakeupCounter == old(wakeupCounter)
      {
        ran := ran + [functors[i]];
        ghost var before := State();
        QueueEach(queued(i));
        QueueAllPending(before, queued(i));
      }
      callingPendingFunctors := false;
    }

    method QueueEach(cbs: seq<Functor<Channel>>)
      modifies this
      ensures State() == QueueAll(old(State()), cbs)
    {
      for k := 0 to |cbs|
        invariant State() == QueueAll(old(State()), cbs[..k])
      {
        assert cbs[..k + 1][..k] == cbs[..k];
        QueueInLoop(cbs[k], true);
      }
      assert cbs[..|cbs|] == cbs;
    }
  }
}
