/** What holds in every state the server can reach, whatever the kernel answers, whatever arrives,
    and whatever user callbacks do to whichever connections they hold. */
module ServerTheorems {
  import opened PollSpec
  import opened LoopSpec
  import opened ConnSpec
  import opened TraceSpec
  import opened ConnProofs
  import opened Server
  import opened ServerProofs
  import ConnTheorems

  /** w' is where the labels lead from w. */
  ghost predicate Leads(w: World, labels: seq<Label>, w': World)
    decreases |labels|
  {
    if labels == [] then w' == w
    else Enabled(w, labels[0]) && WellFormed(w) && Leads(Next(w, labels[0]), labels[1..], w')
  }

  ghost predicate Reachable(w: World) {
    exists start, labels :: Init(start) && Leads(start, labels, w)
  }

  lemma {:induction false} LeadsKeepsInv(w: World, labels: seq<Label>, w': World)
    requires Inv(w) && Leads(w, labels, w')
    ensures Inv(w')
    decreases |labels|
  {
    if labels != [] {
      StepInv(w, labels[0]);
      LeadsKeepsInv(Next(w, labels[0]), labels[1..], w');
    }
  }

  lemma ReachableInv(w: World)
    requires Reachable(w)
    ensures Inv(w)
  {
    var start, labels :| Init(start) && Leads(start, labels, w);
    InitInv(start);
    LeadsKeepsInv(start, labels, w);
  }

  /** An enabled step can always be taken: it leads to a reachable state. */
  lemma ReachableStep(w: World, l: Label)
    requires Reachable(w) && Enabled(w, l)
    ensures WellFormed(w) && Reachable(Next(w, l))
  {
    var start, labels :| Init(start) && Leads(start, labels, w);
    ReachableInv(w);
    InvIsWellFormed(w);
    LeadsSnoc(start, labels, w, l);
  }

  lemma LeadsCons(w: World, l: Label, labels: seq<Label>, w': World)
    requires Enabled(w, l) && WellFormed(w) && Leads(Next(w, l), labels, w')
    ensures Leads(w, [l] + labels, w')
  {
    assert ([l] + labels)[1..] == labels;
  }

  lemma {:induction false} LeadsSnoc(w: World, labels: seq<Label>, w': World, l: Label)
    requires Leads(w, labels, w') && Enabled(w', l) && WellFormed(w')
    ensures Leads(w, labels + [l], Next(w', l))
    decreases |labels|
  {
    if labels == [] {
      assert ([l])[1..] == [];
      assert labels + [l] == [l];
      assert Leads(Next(w', l), [], Next(w', l));
    } else {
      LeadsSnoc(Next(w, labels[0]), labels[1..], w', l);
      assert (labels + [l])[1..] == labels[1..] + [l];
    }
  }

  // ---- Ownership ----

  /** Every channel in the poller's map, hence every channel epoll_wait can return, belongs to a
      connection that is held: by the server's map, by the event being handled, or by a
      connectDestroyed not yet finished; and its descriptor is open and its own. */
  lemma RegisteredIsHeld(w: World, fd: int)
    requires Reachable(w) && fd in w.poll.channels
    ensures var id := w.poll.channels[fd];
            && id < |w.conns| && id !in w.freed && w.conns[id].chan.fd == fd && fd in w.openFds
            && (InMap(w, id) || Doomed(w, id))
            && Held(w, id)
  {
    ReachableInv(w);
    RegisteredIsLive(w, fd);
    var id := w.poll.channels[fd];
    assert ConnInv(w, id);
    assert Names(ConnectDestroyed(id), id);
    if InMap(w, id) {
      assert w.connections[NameOf(w, id)] in w.connections.Values;
    }
  }

  /** No event or functor ever runs on a freed connection, and every connection whose channel still
      waits in activeChannels_ is alive, open and held. */
  lemma NothingDangles(w: World)
    requires Reachable(w)
    ensures !w.dangling
    ensures forall i :: 0 <= i < |w.active| ==>
              && w.active[i].id < |w.conns| && w.active[i].id !in w.freed
              && IsOpen(w.conns[w.active[i].id]) && InMap(w, w.active[i].id)
  {
    ReachableInv(w);
    forall i | 0 <= i < |w.active| ensures w.active[i].id !in w.freed && InMap(w, w.active[i].id) {
      assert ConnInv(w, w.active[i].id);
    }
  }

  /** A connection is freed, and its descriptor closed, only after removeChannel has taken it out
      of the poller and the kernel; so a descriptor the kernel hands out again is never found
      there. */
  lemma FreedAfterRemoval(w: World, id: Id, fd: int)
    requires Reachable(w)
    ensures Enabled(w, Free(id)) ==>
              && IsDestroyed(w.conns[id])
              && (forall n <- w.poll.channels :: w.poll.channels[n] != id)
              && (forall n <- w.poll.epoll :: w.poll.epoll[n].ptr != id)
              && (forall i :: 0 <= i < |w.active| ==> w.active[i].id != id)
    ensures fd !in w.openFds ==> fd !in w.poll.channels && fd !in w.poll.epoll
  {
    ReachableInv(w);
    if Enabled(w, Free(id)) {
      FreeInv(w, id);
      assert ConnInv(w, id);
    }
    if fd !in w.openFds {
      FreshDescriptor(w, fd);
    }
  }

  /** By the time the loop polls again, every connection that closed is destroyed and out of the
      poller. */
  lemma ClosedIsDestroyedBeforePolling(w: World, id: Id)
    requires Reachable(w) && w.phase == Polling && id < |w.conns| && w.conns[id].state == Disconnected
    ensures IsDestroyed(w.conns[id]) && w.conns[id].chan.index == New
    ensures forall fd <- w.poll.epoll :: w.poll.epoll[fd].ptr != id
  {
    ReachableInv(w);
    assert ConnInv(w, id);
    assert ChannelAgrees(w.poll, Chans(w.conns)[id], id);
  }

  // ---- The map ----

  /** Between events and tasks the server's map holds exactly the open connections, each under its
      own name. */
  lemma MapIsExact(w: World)
    requires Reachable(w) && w.activity == Idle
    ensures forall id: nat :: id < |w.conns| ==>
              (InMap(w, id) <==> IsOpen(w.conns[id]) && !IsDestroyed(w.conns[id]))
    ensures forall n <- w.connections :: exists id: nat :: id < |w.conns| && n == NameOf(w, id) && InMap(w, id)
  {
    ReachableInv(w);
    forall id: nat | id < |w.conns|
      ensures InMap(w, id) <==> IsOpen(w.conns[id]) && !IsDestroyed(w.conns[id])
    {
      assert ConnInv(w, id);
    }
    forall n | n in w.connections ensures exists id: nat :: id < |w.conns| && n == NameOf(w, id) && InMap(w, id) {
      var id := w.connections[n];
      assert InMap(w, id);
    }
  }

  /** Entering a connection never overwrites another. */
  lemma InsertIsFresh(w: World, fd: int)
    requires Reachable(w) && Enabled(w, Accept(fd))
    ensures NameOf(w, |w.conns|) !in w.connections
    ensures Enter(w, fd).connections.Keys == w.connections.Keys + {NameOf(w, |w.conns|)}
    ensures forall n <- w.connections :: Enter(w, fd).connections[n] == w.connections[n]
  {
    ReachableInv(w);
    FreshName(w);
  }

  // ---- The streams ----

  /** The promises of every connection ever accepted. The bytes written followed by the bytes
      buffered are the bytes taken; what the user took from the input followed by what is left of
      it is what was read; the write side is shut down at most once, with everything
      taken written; the connection came up once; there are as many high-water notifications as
      upward crossings; and the kernel is asked for room exactly while bytes wait. */
  lemma EveryConnectionKeepsItsPromises(w: World, id: Id)
    requires Reachable(w) && id < |w.conns|
    ensures var c := w.conns[id]; var t := TallyOf(c.trace);
            && Written(c.trace) + c.output == Taken(c.trace)
            && Used(c.trace) + c.input == Received(c.trace)
            && t.fins <= 1 && (0 < t.fins ==> c.output == [])
            && t.ups == 1 && HighWaters(c.trace) == Crossings(c.trace)
            && Legal(c.trace) && Prompt(c.trace, c.completes)
    ensures var c := w.conns[id];
            IsOpen(c) && !IsDestroyed(c) ==>
              && c.chan.fd in w.poll.epoll && w.poll.epoll[c.chan.fd].ptr == id
              && w.poll.epoll[c.chan.fd].mask == DueEvents(c.output)
              && (c.state == Disconnecting && c.output == [] ==> TallyOf(c.trace).fins == 1)
  {
    ReachableInv(w);
    assert ConnInv(w, id);
    GoodAt(w, id);
    var c := w.conns[id];
    BacklogIsBuffered(c);
    AtMostOneFin(c.trace);
    UpExactlyOnce(c.trace);
    HighWaterCounts(c.trace, c.completes);
    if 0 < |c.output| {
      NoFinWhileOwing(c.trace);
    }
    if IsOpen(c) && !IsDestroyed(c) {
      ConnTheorems.WriteInterestIsExact(At(w, id), Chans(w.conns));
    }
  }

  // ---- Waking ----

  /** Whoever queues tasks, the loop's own thread or others, the loop is never in epoll_wait with
      work queued, a zero counter and no thread about to write it; and poller, kernel and channels
      agree at every moment. */
  lemma NeverPollsOnQueuedWork(w: World)
    requires Reachable(w)
    ensures w.phase == Polling && w.loop.pending != [] ==> 0 < w.loop.counter || 0 < w.owed
    ensures Agreement(w.poll, Chans(w.conns))
  {
    ReachableInv(w);
  }
}
