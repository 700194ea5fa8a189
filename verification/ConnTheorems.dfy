/** What a user of one connection relies on, over every sequence of messages, shutdowns, kernel
    answers and events. */
module ConnTheorems {
  import opened Kernel
  import opened PollSpec
  import opened LoopSpec
  import opened ConnSpec
  import opened TraceSpec
  import opened ConnProofs

  lemma QuietTrans<C>(x: Ctx<C>, y: Ctx<C>, z: Ctx<C>)
    requires Quiet(x, y) && Quiet(y, z)
    ensures Quiet(x, z)
  {
    forall i | |x.loop.pending| <= i < |z.loop.pending|
      ensures z.loop.pending[i] == WriteComplete(x.self)
              || (z.loop.pending[i].HighWaterMark? && z.loop.pending[i].conn == x.self)
    {
      if i < |y.loop.pending| {
        assert z.loop.pending[i] == y.loop.pending[i];
      }
    }
  }

  /** A whole callback keeps what each of its operations keeps. */
  lemma {:induction false} UseAllGood<C>(x: Ctx<C>, ops: seq<UserOp>, chans: map<C, Chan>)
    requires Good(x, chans)
    ensures var y := UseAll(x, ops);
            Good(y, chans[x.self := y.conn.chan]) && Quiet(x, y)
  {
    assert chans[x.self := x.conn.chan] == chans;
    if ops != [] {
      UseAllGood(x, ops[..|ops| - 1], chans);
      UseOneMore(x, UseAll(x, ops[..|ops| - 1]), ops[|ops| - 1], chans);
    }
  }

  lemma UseOneMore<C>(x: Ctx<C>, mid: Ctx<C>, op: UserOp, chans: map<C, Chan>)
    requires Good(mid, chans[x.self := mid.conn.chan]) && Quiet(x, mid)
    ensures var y := Use(mid, op);
            Good(y, chans[x.self := y.conn.chan]) && Quiet(x, y)
  {
    var chans' := chans[x.self := mid.conn.chan];
    UseGood(mid, op, chans');
    var y := Use(mid, op);
    assert chans'[mid.self := y.conn.chan] == chans[x.self := y.conn.chan];
    QuietTrans(x, mid, y);
  }

  /** In the connection's mask and in the kernel's alike, an open connection asks to be told of
      room to write exactly while bytes wait. */
  lemma WriteInterestIsExact<C>(x: Ctx<C>, chans: map<C, Chan>)
    requires Good(x, chans) && IsOpen(x.conn) && !IsDestroyed(x.conn)
    ensures x.conn.chan.fd in x.poll.epoll && x.poll.epoll[x.conn.chan.fd].ptr == x.self
    ensures x.poll.epoll[x.conn.chan.fd].mask == x.conn.chan.events
    ensures Out in x.poll.epoll[x.conn.chan.fd].mask <==> x.conn.output != []
    ensures In in x.poll.epoll[x.conn.chan.fd].mask
  {
    assert ChannelAgrees(x.poll, chans[x.self], x.self);
  }

  // ---- Draining ----

  /** EPOLLOUT again and again, the kernel having room for rooms[i] bytes the i-th time. */
  function DrainAll<C>(x: Ctx<C>, rooms: seq<nat>): Ctx<C> {
    if rooms == [] then x else HandleWrite(DrainAll(x, rooms[..|rooms| - 1]), Takes(rooms[|rooms| - 1]))
  }

  function Sum(rooms: seq<nat>): nat {
    if rooms == [] then 0 else Sum(rooms[..|rooms| - 1]) + rooms[|rooms| - 1]
  }

  lemma DrainStep<C>(x: Ctx<C>, room: nat, chans: map<C, Chan>)
    requires Good(x, chans) && IsOpen(x.conn) && !IsDestroyed(x.conn)
    ensures var y := HandleWrite(x, Takes(room));
            && y.conn.output == x.conn.output[Min(room, |x.conn.output|)..]
            && y.conn.state == x.conn.state && Taken(y.conn.trace) == Taken(x.conn.trace)
  {
    HandleWriteGood(x, Takes(room), chans);
  }

  /** Any number of write events keeps every promise. */
  lemma {:induction false} DrainAllKeeps<C>(x: Ctx<C>, rooms: seq<nat>, chans: map<C, Chan>)
    requires Good(x, chans) && IsOpen(x.conn) && !IsDestroyed(x.conn)
    ensures var y := DrainAll(x, rooms);
            Good(y, chans[x.self := y.conn.chan]) && Quiet(x, y) && y.conn.state == x.conn.state
  {
    if rooms == [] {
      assert chans[x.self := x.conn.chan] == chans;
    } else {
      var mid := DrainAll(x, rooms[..|rooms| - 1]);
      DrainAllKeeps(x, rooms[..|rooms| - 1], chans);
      DrainOnce(x, mid, rooms[|rooms| - 1], chans);
    }
  }

  lemma DrainOnce<C>(x: Ctx<C>, mid: Ctx<C>, room: nat, chans: map<C, Chan>)
    requires Good(mid, chans[x.self := mid.conn.chan]) && Quiet(x, mid)
    requires IsOpen(mid.conn) && !IsDestroyed(mid.conn)
    ensures var y := HandleWrite(mid, Takes(room));
            Good(y, chans[x.self := y.conn.chan]) && Quiet(x, y) && y.conn.state == mid.conn.state
  {
    var chans' := chans[x.self := mid.conn.chan];
    var y := HandleWrite(mid, Takes(room));
    HandleWriteGood(mid, Takes(room), chans');
    DrainStep(mid, room, chans');
    assert chans'[mid.self := y.conn.chan] == chans[x.self := y.conn.chan];
    QuietTrans(x, mid, y);
  }

  /** Each round takes what there is room for, and nothing is lost or reordered meanwhile. */
  lemma {:induction false} DrainTakesWhatFits<C>(x: Ctx<C>, rooms: seq<nat>, chans: map<C, Chan>)
    requires Good(x, chans) && IsOpen(x.conn) && !IsDestroyed(x.conn)
    ensures var y := DrainAll(x, rooms);
            && y.conn.output == x.conn.output[Min(Sum(rooms), |x.conn.output|)..]
            && y.conn.state == x.conn.state && Taken(y.conn.trace) == Taken(x.conn.trace)
  {
    if rooms != [] {
      var init, room := rooms[..|rooms| - 1], rooms[|rooms| - 1];
      DrainTakesWhatFits(x, init, chans);
      DrainAllKeeps(x, init, chans);
      DrainFits(x, DrainAll(x, init), Sum(init), room, chans);
    }
  }

  lemma DrainFits<C>(x: Ctx<C>, mid: Ctx<C>, n: nat, room: nat, chans: map<C, Chan>)
    requires Good(mid, chans[x.self := mid.conn.chan]) && mid.self == x.self
    requires IsOpen(mid.conn) && !IsDestroyed(mid.conn)
    requires mid.conn.output == x.conn.output[Min(n, |x.conn.output|)..]
    ensures var y := HandleWrite(mid, Takes(room));
            && y.conn.output == x.conn.output[Min(n + room, |x.conn.output|)..]
            && y.conn.state == mid.conn.state && Taken(y.conn.trace) == Taken(mid.conn.trace)
  {
    DrainStep(mid, room, chans[x.self := mid.conn.chan]);
    DropTwice(x.conn.output, n, room);
  }

  lemma DropTwice(s: seq<Byte>, a: nat, b: nat)
    ensures var t := s[Min(a, |s|)..]; t[Min(b, |t|)..] == s[Min(a + b, |s|)..]
  {
  }

  /** Once the kernel has had room for all that waited, the buffer is empty, write interest is off
      in the kernel too, all that was taken is written, and a connection that was shutting down
      has had its write side shut down. */
  lemma DrainFinishes<C>(x: Ctx<C>, rooms: seq<nat>, chans: map<C, Chan>)
    requires Good(x, chans) && IsOpen(x.conn) && !IsDestroyed(x.conn)
    requires |x.conn.output| <= Sum(rooms)
    ensures var y := DrainAll(x, rooms);
            && y.conn.output == [] && Written(y.conn.trace) == Taken(x.conn.trace)
            && y.conn.chan.fd in y.poll.epoll && Out !in y.poll.epoll[y.conn.chan.fd].mask
            && (x.conn.state == Disconnecting ==> TallyOf(y.conn.trace).fins == 1)
  {
    DrainTakesWhatFits(x, rooms, chans);
    DrainAllKeeps(x, rooms, chans);
    var y := DrainAll(x, rooms);
    WriteInterestIsExact(y, chans[x.self := y.conn.chan]);
    assert Written(y.conn.trace) + [] == Taken(y.conn.trace);
  }

  /** Rounds in which something is written are enough, however little each time: there need be no
      more of them than bytes. */
  lemma {:induction false} ProgressSuffices(rooms: seq<nat>)
    requires forall i :: 0 <= i < |rooms| ==> 0 < rooms[i]
    ensures |rooms| <= Sum(rooms)
  {
    if rooms != [] {
      ProgressSuffices(rooms[..|rooms| - 1]);
    }
  }

  // ---- Dispatch ----

  /** The masks whose dispatch can run into the end of the connection twice. */
  predicate TwiceMask(m: Mask) {
    Hup in m && In !in m && Pri in m
  }

  /** A connection up or on its way down, keeping its promises. */
  ghost predicate Alive<C>(x: Ctx<C>, chans: map<C, Chan>) {
    Good(x, chans) && x.conn.state != Connecting && !IsDestroyed(x.conn)
  }

  function Downs<C>(x: Ctx<C>): nat {
    TallyOf(x.conn.trace).downs
  }

  function Closes<C>(x: Ctx<C>): nat {
    TallyOf(x.conn.trace).closes
  }

  lemma HangupEffect<C>(x: Ctx<C>, revents: Mask, user: seq<UserOp>, chans: map<C, Chan>)
    requires Alive(x, chans[x.self := x.conn.chan])
    ensures var y := OnHangup(x, revents, user);
            var ends := if Hup in revents && In !in revents then 1 else 0;
            && Alive(y, chans[y.self := y.conn.chan])
            && Downs(y) == Downs(x) + ends && Closes(y) == Closes(x) + ends
  {
    if Hup in revents && In !in revents {
      HandleCloseGood(x, user, chans[x.self := x.conn.chan]);
      var y := HandleClose(x, user);
      assert chans[x.self := x.conn.chan][x.self := y.conn.chan] == chans[x.self := y.conn.chan];
    }
  }

  lemma ReadableEffect<C>(x: Ctx<C>, revents: Mask, answer: ReadAnswer, user: seq<UserOp>, chans: map<C, Chan>)
    requires Alive(x, chans[x.self := x.conn.chan])
    ensures var y := OnReadable(x, revents, answer, user);
            var ends := if (In in revents || Pri in revents) && answer == Offers([]) then 1 else 0;
            && Alive(y, chans[y.self := y.conn.chan])
            && Downs(y) == Downs(x) + ends && Closes(y) == Closes(x) + ends
  {
    if In in revents || Pri in revents {
      HandleReadGood(x, answer, user, chans[x.self := x.conn.chan]);
      var y := HandleRead(x, answer, user);
      assert chans[x.self := x.conn.chan][x.self := y.conn.chan] == chans[x.self := y.conn.chan];
    }
  }

  lemma WritableEffect<C>(x: Ctx<C>, revents: Mask, answer: WriteAnswer, chans: map<C, Chan>)
    requires Alive(x, chans[x.self := x.conn.chan])
    ensures var y := OnWritable(x, revents, answer);
            && Alive(y, chans[y.self := y.conn.chan])
            && Downs(y) == Downs(x) && Closes(y) == Closes(x)
  {
    if Out in revents {
      WrittenAlive(x, answer, chans);
    }
  }

  lemma WrittenAlive<C>(x: Ctx<C>, answer: WriteAnswer, chans: map<C, Chan>)
    requires Alive(x, chans[x.self := x.conn.chan])
    ensures var y := HandleWrite(x, answer);
            && Alive(y, chans[y.self := y.conn.chan])
            && Downs(y) == Downs(x) && Closes(y) == Closes(x)
  {
    HandleWriteGood(x, answer, chans[x.self := x.conn.chan]);
    QuietAlive(x, HandleWrite(x, answer), chans);
  }

  lemma QuietAlive<C>(x: Ctx<C>, y: Ctx<C>, chans: map<C, Chan>)
    requires Alive(x, chans[x.self := x.conn.chan]) && Quiet(x, y)
    requires Good(y, chans[x.self := x.conn.chan][x.self := y.conn.chan])
    ensures Alive(y, chans[y.self := y.conn.chan]) && Downs(y) == Downs(x) && Closes(y) == Closes(x)
  {
    assert chans[x.self := x.conn.chan][x.self := y.conn.chan] == chans[x.self := y.conn.chan];
  }

  /** One dispatch, whatever its mask, keeps every promise; it takes the connection down, and has
      the server forget it, once for a hang-up and once for a read that finds the end. */
  lemma DispatchDowns<C>(x: Ctx<C>, revents: Mask, env: Env, chans: map<C, Chan>)
    requires Alive(x, chans[x.self := x.conn.chan])
    ensures var y := HandleEvent(x, revents, env);
            var ends := (if Hup in revents && In !in revents then 1 else 0)
                        + (if (In in revents || Pri in revents) && env.read == Offers([]) then 1 else 0);
            && Alive(y, chans[y.self := y.conn.chan])
            && Downs(y) == Downs(x) + ends && Closes(y) == Closes(x) + ends
  {
    HangupEffect(x, revents, env.closing, chans);
    var x1 := OnHangup(x, revents, env.closing);
    ReadableEffect(x1, revents, env.read, env.reading, chans);
    var x2 := OnReadable(x1, revents, env.read, env.reading);
    WritableEffect(x2, revents, env.write, chans);
  }

  /** handleClose up to the end of the user's callback. */
  lemma ClosingGood<C>(x: Ctx<C>, user: seq<UserOp>, chans: map<C, Chan>)
    requires Good(x, chans) && x.conn.state != Connecting && !IsDestroyed(x.conn)
    ensures var y := UseAll(CloseBegin(x), user);
            && Good(y, chans[x.self := y.conn.chan]) && y.self == x.self
            && y.conn.state == Disconnected && !IsDestroyed(y.conn)
            && Downs(y) == Downs(x) + 1 && Closes(y) == Closes(x)
  {
    CloseBeginGood(x, chans);
    KeptDown(CloseBegin(x), user, chans);
  }

  lemma KeptDown<C>(x: Ctx<C>, user: seq<UserOp>, chans: map<C, Chan>)
    requires Good(x, chans[x.self := x.conn.chan]) && x.conn.state == Disconnected && !IsDestroyed(x.conn)
    ensures var y := UseAll(x, user);
            && Good(y, chans[x.self := y.conn.chan]) && y.self == x.self
            && y.conn.state == Disconnected && !IsDestroyed(y.conn)
            && Downs(y) == Downs(x) && Closes(y) == Closes(x)
  {
    UseAllGood(x, user, chans[x.self := x.conn.chan]);
    var y := UseAll(x, user);
    assert chans[x.self := x.conn.chan][x.self := y.conn.chan] == chans[x.self := y.conn.chan];
  }

  lemma HandleCloseGood<C>(x: Ctx<C>, user: seq<UserOp>, chans: map<C, Chan>)
    requires Good(x, chans) && x.conn.state != Connecting && !IsDestroyed(x.conn)
    ensures var y := HandleClose(x, user);
            && Good(y, chans[x.self := y.conn.chan]) && y.self == x.self
            && y.conn.state == Disconnected && !IsDestroyed(y.conn)
            && Downs(y) == Downs(x) + 1 && Closes(y) == Closes(x) + 1
  {
    ClosingGood(x, user, chans);
    var used := UseAll(CloseBegin(x), user);
    CloseEndsIt(used, chans[x.self := used.conn.chan]);
  }

  lemma CloseEndsIt<C>(x: Ctx<C>, chans: map<C, Chan>)
    requires Good(x, chans) && x.conn.state == Disconnected && !IsDestroyed(x.conn)
    ensures var y := CloseEnd(x);
            && Good(y, chans) && y.self == x.self && y.conn.chan == x.conn.chan
            && y.conn.state == Disconnected && !IsDestroyed(y.conn)
            && Downs(y) == Downs(x) && Closes(y) == Closes(x) + 1
  {
    CloseEndGood(x, chans);
  }

  lemma HandleReadGood<C>(x: Ctx<C>, answer: ReadAnswer, user: seq<UserOp>, chans: map<C, Chan>)
    requires Good(x, chans) && x.conn.state != Connecting && !IsDestroyed(x.conn)
    ensures var y := HandleRead(x, answer, user);
            var ended := if answer == Offers([]) then 1 else 0;
            && Good(y, chans[x.self := y.conn.chan]) && y.self == x.self && !IsDestroyed(y.conn)
            && y.conn.state != Connecting
            && TallyOf(y.conn.trace).downs == TallyOf(x.conn.trace).downs + ended
            && TallyOf(y.conn.trace).closes == TallyOf(x.conn.trace).closes + ended
  {
    assert chans[x.self := x.conn.chan] == chans;
    if answer.Offers? {
      if answer.data == [] {
        HandleCloseGood(x, user, chans);
      } else {
        ReceiveGood(x, answer.data, chans);
        UseAllGood(Receive(x, answer.data), user, chans);
      }
    }
  }

  /** One dispatch takes a connection down at most once, whatever the kernel and the user do
      meanwhile, exactly for the masks other than those that hang up and raise PRI without IN.
      With such a mask a read that finds the end closes the connection a second time. */
  lemma DownOncePerDispatchIff<C>(x: Ctx<C>, revents: Mask, chans: map<C, Chan>)
    requires Alive(x, chans[x.self := x.conn.chan])
    ensures (forall env :: Downs(HandleEvent(x, revents, env)) <= Downs(x) + 1) <==> !TwiceMask(revents)
  {
    forall env ensures !TwiceMask(revents) ==> Downs(HandleEvent(x, revents, env)) <= Downs(x) + 1 {
      DispatchDowns(x, revents, env, chans);
    }
    var ending := Env([], Offers([]), [], Takes(0));
    DispatchDowns(x, revents, ending, chans);
    if TwiceMask(revents) {
      assert Downs(HandleEvent(x, revents, ending)) == Downs(x) + 2;
    }
  }

  /** Such a mask does it: the connection goes down twice, and two ends are queued for it. */
  lemma ClosesTwice<C>(x: Ctx<C>, chans: map<C, Chan>)
    requires Alive(x, chans[x.self := x.conn.chan])
    ensures var y := HandleEvent(x, {Hup, Pri}, Env([], Offers([]), [], Takes(0)));
            && Downs(y) == Downs(x) + 2 && Closes(y) == Closes(x) + 2
            && y.loop.pending == x.loop.pending + [ConnectDestroyed(x.self), ConnectDestroyed(x.self)]
  {
    DispatchDowns(x, {Hup, Pri}, Env([], Offers([]), [], Takes(0)), chans);
    CloseQueues(x);
    CloseQueues(HandleClose(x, []));
    HangsUpAndReads(x);
  }

  lemma CloseQueues<C>(x: Ctx<C>)
    ensures var y := HandleClose(x, []);
            y.self == x.self && y.loop.pending == x.loop.pending + [ConnectDestroyed(x.self)]
  {
    assert UseAll(CloseBegin(x), []) == CloseBegin(x);
  }

  lemma HangsUpAndReads<C>(x: Ctx<C>)
    ensures HandleEvent(x, {Hup, Pri}, Env([], Offers([]), [], Takes(0))) == HandleClose(HandleClose(x, []), [])
  {
  }

  // ---- Calls from other threads ----

  /** shutdown called by another thread: the state changes at once, shutdownInLoop waits in the
      queue. */
  function ShutdownElsewhere<C>(x: Ctx<C>): Ctx<C>
    requires x.conn.state == Connected
  {
    Note(SetState(x, Disconnecting), Shut)
  }

  lemma {:induction false} IdleDrains<C>(x: Ctx<C>, rooms: seq<nat>)
    requires !x.conn.chan.IsWriting()
    ensures DrainAll(x, rooms) == x
  {
    if rooms != [] {
      IdleDrains(x, rooms[..|rooms| - 1]);
    }
  }

  /** How often such a shutdown shuts the write side down, its queued half running when the kernel
      has had room for so many bytes: once only if nothing was waiting at all; not yet if something
      still is; and twice if all has been written meanwhile, once by handleWrite and once by the
      queued half. */
  lemma ShutdownElsewhereOnceIff<C>(x: Ctx<C>, rooms: seq<nat>, chans: map<C, Chan>)
    requires Good(x, chans) && x.conn.state == Connected
    ensures var y := ShutdownInLoop(DrainAll(ShutdownElsewhere(x), rooms));
            TallyOf(y.conn.trace).fins
            == if x.conn.output == [] then 1 else if Sum(rooms) < |x.conn.output| then 0 else 2
  {
    var flagged := ShutdownElsewhere(x);
    NoFinYet(x.conn.trace);
    if x.conn.output == [] {
      IdleDrains(flagged, rooms);
    } else {
      ShutdownGood(x, chans);
      assert flagged == Shutdown(x);
      DrainAllKeeps(flagged, rooms, chans);
      DrainTakesWhatFits(flagged, rooms, chans);
      if Sum(rooms) < |x.conn.output| {
        HeldBack(DrainAll(flagged, rooms));
      } else {
        DrainFinishes(flagged, rooms, chans);
      }
    }
  }

  /** While bytes wait on an open connection, shutdownInLoop does nothing and nothing has ended. */
  lemma HeldBack<C>(x: Ctx<C>)
    requires Sound(x.conn) && IsOpen(x.conn) && !IsDestroyed(x.conn) && x.conn.output != []
    ensures ShutdownInLoop(x) == x && TallyOf(x.conn.trace).fins == 0
  {
    BacklogIsBuffered(x.conn);
    NoFinWhileOwing(x.conn.trace);
  }

  /** sendInLoop in whatever state it runs, as a message sent from another thread may meet any: the
      message is kept whole exactly if the connection has not closed and either something already
      waits or is being written, or the kernel does not find the connection broken. Otherwise all
      of it is lost. */
  lemma SendInLoopKeepsIff<C>(x: Ctx<C>, message: seq<Byte>, answer: WriteAnswer)
    requires message != []
    ensures var y := SendInLoop(x, message, answer);
            && (Taken(y.conn.trace) == Taken(x.conn.trace) + message
                <==> && x.conn.state != Disconnected
                     && (x.conn.chan.IsWriting() || x.conn.output != [] || !Broken(Heard(x.conn.ended, answer))))
            && (Taken(y.conn.trace) != Taken(x.conn.trace) + message ==>
                  && Taken(y.conn.trace) == Taken(x.conn.trace) && Written(y.conn.trace) == Written(x.conn.trace)
                  && y.conn.output == x.conn.output)
  {
  }

  /** On a connection that has run shutdown to its end, such a message is lost exactly if the write
      side is already shut down, which it is exactly if nothing waits. */
  lemma LateSendIsLostIff<C>(x: Ctx<C>, message: seq<Byte>, answer: WriteAnswer, chans: map<C, Chan>)
    requires Good(x, chans) && x.conn.state == Disconnecting && !IsDestroyed(x.conn) && message != []
    ensures var y := SendInLoop(x, message, answer);
            && (x.conn.ended <==> x.conn.output == [])
            && (y == Note(x, Dropped(message)) <==> x.conn.ended)
            && (!x.conn.ended ==> Taken(y.conn.trace) == Taken(x.conn.trace) + message
                                  && y.conn.output == x.conn.output + message)
  {
  }

  /** While the queued half of a foreign shutdown is still to run, such a message is lost exactly if
      it is offered to the kernel at once and the kernel finds the connection broken. */
  lemma FlaggedSendIsLostIff<C>(x: Ctx<C>, message: seq<Byte>, answer: WriteAnswer, chans: map<C, Chan>)
    requires Good(x, chans) && x.conn.state == Connected && message != []
    ensures var y := SendInLoop(ShutdownElsewhere(x), message, answer);
            Taken(y.conn.trace) != Taken(x.conn.trace) + message <==> x.conn.output == [] && Broken(answer)
  {
    SendInLoopKeepsIff(ShutdownElsewhere(x), message, answer);
  }
}
