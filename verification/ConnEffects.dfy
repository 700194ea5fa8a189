/** What each operation of a connection accomplishes, in terms of its streams, its buffers, its
    state and the kernel's set. */
module ConnEffects {
  import opened Kernel
  import opened PollSpec
  import opened LoopSpec
  import opened ConnSpec
  import opened TraceSpec
  import opened ConnProofs
  import opened ConnTheorems

  /** Everything about a connection that has nothing to do with its output. */
  ghost predicate SameInput<C>(x: Ctx<C>, y: Ctx<C>) {
    && y.self == x.self && y.conn.input == x.conn.input && y.conn.mark == x.conn.mark
    && Received(y.conn.trace) == Received(x.conn.trace) && Used(y.conn.trace) == Used(x.conn.trace)
  }

  /** Everything about a connection that has nothing to do with its input and its mark. */
  ghost predicate SameOutput<C>(x: Ctx<C>, y: Ctx<C>) {
    && y == x.(conn := x.conn.(input := y.conn.input, mark := y.conn.mark, trace := y.conn.trace))
    && Taken(y.conn.trace) == Taken(x.conn.trace) && Written(y.conn.trace) == Written(x.conn.trace)
    && TallyOf(y.conn.trace) == TallyOf(x.conn.trace)
  }

  // ---- Sending and shutting down ----

  /** A message sent while nothing waits goes to the kernel as far as there is room, and only the
      rest is kept; while something waits, all of it is kept behind that. Only a broken connection
      loses it. */
  lemma SendEffect<C>(x: Ctx<C>, message: seq<Byte>, answer: WriteAnswer, chans: map<C, Chan>)
    requires Good(x, chans) && x.conn.state == Connected
    ensures var y := Send(x, message, answer);
            var now := if x.conn.output == [] && answer.Takes? then Min(answer.room, |message|) else 0;
            && Written(y.conn.trace) == Written(x.conn.trace) + message[..now]
            && y.conn.output == (if x.conn.output == [] && Broken(answer) then [] else x.conn.output + message[now..])
            && y.conn.state == Connected && SameInput(x, y)
  {
    SendInput(x, message, answer);
    var now := if x.conn.output == [] && answer.Takes? then Min(answer.room, |message|) else 0;
    if now < |message| && !(x.conn.output == [] && Broken(answer)) {
      assert Send(x, message, answer) == KeepRest(x, message, now);
      KeepStreams(x, message, now);
    } else if answer.Takes? && x.conn.output == [] {
      CompletionStreams(Note(x, Sent(message, |message|)));
    }
  }

  lemma KeepStreams<C>(x: Ctx<C>, message: seq<Byte>, now: nat)
    requires now < |message|
    ensures var y := KeepRest(x, message, now);
            && Written(y.conn.trace) == Written(x.conn.trace) + message[..now]
            && y.conn.output == x.conn.output + message[now..] && y.conn.state == x.conn.state
  {
  }

  /** Only a connected connection takes messages and shuts down. */
  lemma OnlyWhileConnected<C>(x: Ctx<C>, message: seq<Byte>, answer: WriteAnswer)
    requires x.conn.state != Connected
    ensures Send(x, message, answer) == x && Shutdown(x) == x
  {
  }

  /** A shutdown is under way at once; the write side is shut down with it if nothing waits, and
      only then. */
  lemma ShutdownEffect<C>(x: Ctx<C>, chans: map<C, Chan>)
    requires Good(x, chans) && x.conn.state == Connected
    ensures var y := Shutdown(x);
            && y.conn.state == Disconnecting && SameInput(x, y)
            && TallyOf(y.conn.trace).fins == (if x.conn.output == [] then 1 else 0)
            && Taken(y.conn.trace) == Taken(x.conn.trace) && Written(y.conn.trace) == Written(x.conn.trace)
            && y.conn.output == x.conn.output && y.poll == x.poll && y.loop == x.loop
  {
    NoFinYet(x.conn.trace);
  }

  /** With room enough for what waits, a shutdown is followed by the end of the stream, once, after
      everything taken before it. */
  lemma ShutdownCompletes<C>(x: Ctx<C>, rooms: seq<nat>, chans: map<C, Chan>)
    requires Good(x, chans) && x.conn.state == Connected && |x.conn.output| <= Sum(rooms)
    ensures var y := DrainAll(Shutdown(x), rooms);
            && TallyOf(y.conn.trace).fins == 1 && Written(y.conn.trace) == Taken(x.conn.trace)
            && y.conn.output == [] && y.conn.state == Disconnecting
  {
    ShutdownEffect(x, chans);
    ShutdownGood(x, chans);
    DrainTakesWhatFits(Shutdown(x), rooms, chans);
    DrainFinishes(Shutdown(x), rooms, chans);
  }

  /** A write event moves bytes from the front of what waits to the kernel, as many as it has room
      for; with none moved nothing changes at all. */
  lemma WriteEffect<C>(x: Ctx<C>, answer: WriteAnswer, chans: map<C, Chan>)
    requires Good(x, chans) && IsOpen(x.conn) && !IsDestroyed(x.conn)
    ensures var y := HandleWrite(x, answer);
            var n := if answer.Takes? then Min(answer.room, |x.conn.output|) else 0;
            && Written(y.conn.trace) == Written(x.conn.trace) + x.conn.output[..n]
            && y.conn.output == x.conn.output[n..]
            && y.conn.state == x.conn.state && SameInput(x, y)
            && (n == 0 ==> y == x)
  {
    var n := if answer.Takes? then Min(answer.room, |x.conn.output|) else 0;
    if n == 0 {
      assert x.conn.output[..0] == [] && Written(x.conn.trace) + [] == Written(x.conn.trace);
    } else {
      FinishStreams(Drain(x, n));
    }
  }

  /** Finishing a drain moves no bytes. */
  lemma FinishStreams<C>(x: Ctx<C>)
    ensures var y := FinishDrain(x);
            && Written(y.conn.trace) == Written(x.conn.trace) && y.conn.output == x.conn.output
            && y.conn.state == x.conn.state && SameInput(x, y)
  {
    CompletionStreams(SetInterest(x, x.conn.chan.events - WRITE_EVENT));
  }

  lemma CompletionStreams<C>(x: Ctx<C>)
    ensures var y := QueueCompletion(x);
            && Written(y.conn.trace) == Written(x.conn.trace) && y.conn.output == x.conn.output
            && y.conn.state == x.conn.state && SameInput(x, y)
  {
  }

  // ---- Receiving ----

  /** Bytes from the peer join the end of the input; nothing else changes. */
  lemma ReceiveEffect<C>(x: Ctx<C>, data: seq<Byte>)
    ensures var y := Receive(x, data);
            && Received(y.conn.trace) == Received(x.conn.trace) + data && Used(y.conn.trace) == Used(x.conn.trace)
            && y.conn.input == x.conn.input + data && y.conn.mark == x.conn.mark && SameOutput(x, y)
  {
  }

  /** The user takes bytes from the front of the input; nothing else changes. */
  lemma RetrieveEffect<C>(x: Ctx<C>, len: nat)
    ensures var y := Use(x, DoRetrieve(len));
            var n := if len <= |x.conn.input| then len else |x.conn.input|;
            && Used(y.conn.trace) == Used(x.conn.trace) + x.conn.input[..n]
            && y.conn.input == x.conn.input[n..] && Received(y.conn.trace) == Received(x.conn.trace)
            && y.conn.mark == x.conn.mark && SameOutput(x, y)
  {
  }

  lemma SetMarkEffect<C>(x: Ctx<C>, mark: nat)
    ensures var y := Use(x, DoSetMark(mark));
            && y.conn.mark == Some(mark) == MarkOf(y.conn.trace) && y.conn.input == x.conn.input
            && Received(y.conn.trace) == Received(x.conn.trace) && Used(y.conn.trace) == Used(x.conn.trace)
            && SameOutput(x, y)
  {
  }

  /** The operations of a callback run one after the other, from the first to the last. */
  lemma {:induction false} UseAllInOrder<C>(x: Ctx<C>, first: seq<UserOp>, rest: seq<UserOp>)
    ensures UseAll(x, first + rest) == UseAll(UseAll(x, first), rest)
  {
    if rest == [] {
      assert first + rest == first;
    } else {
      assert (first + rest)[..|first + rest| - 1] == first + rest[..|rest| - 1];
      UseAllInOrder(x, first, rest[..|rest| - 1]);
    }
  }

  lemma UseOne<C>(x: Ctx<C>, op: UserOp)
    ensures UseAll(x, [op]) == Use(x, op)
  {
    assert [op][..0] == [];
  }

  /** What the user does loses no input and makes none up. */
  lemma UseInput<C>(x: Ctx<C>, op: UserOp)
    ensures var y := Use(x, op);
            && Received(y.conn.trace) == Received(x.conn.trace)
            && Used(y.conn.trace) + y.conn.input == Used(x.conn.trace) + x.conn.input
  {
    match op
    case DoSend(message, answer) => SendInput(x, message, answer);
    case DoRetrieve(len) => RetrieveEffect(x, len);
    case _ =>
  }

  lemma SendInput<C>(x: Ctx<C>, message: seq<Byte>, answer: WriteAnswer)
    ensures SameInput(x, Send(x, message, answer))
  {
    var reply := Heard(x.conn.ended, answer);
    if reply.Takes? && |message| <= reply.room {
      CompletionStreams(Note(x, Sent(message, |message|)));
    } else if reply.Takes? {
      KeepInput(x, message, reply.room);
    }
    if message != [] {
      KeepInput(x, message, 0);
    }
  }

  lemma KeepInput<C>(x: Ctx<C>, message: seq<Byte>, now: nat)
    requires now < |message|
    ensures SameInput(x, KeepRest(x, message, now))
  {
  }

  lemma {:induction false} UseAllInput<C>(x: Ctx<C>, ops: seq<UserOp>)
    ensures var y := UseAll(x, ops);
            && Received(y.conn.trace) == Received(x.conn.trace)
            && Used(y.conn.trace) + y.conn.input == Used(x.conn.trace) + x.conn.input
  {
    if ops != [] {
      UseAllInput(x, ops[..|ops| - 1]);
      UseInput(UseAll(x, ops[..|ops| - 1]), ops[|ops| - 1]);
    }
  }

  /** The connection as the message callback finds it. */
  function Fed<C>(x: Ctx<C>, data: seq<Byte>): Ctx<C> {
    x.(conn := x.conn.(input := x.conn.input + data, trace := Then(x.conn.trace, Arrived(data))))
  }

  lemma FedInput<C>(x: Ctx<C>, data: seq<Byte>)
    ensures var fed := Fed(x, data);
            && Received(fed.conn.trace) == Received(x.conn.trace) + data
            && Used(fed.conn.trace) + fed.conn.input == Used(x.conn.trace) + x.conn.input + data
  {
    Append(Used(x.conn.trace), x.conn.input, data);
  }

  lemma Append(a: seq<Byte>, b: seq<Byte>, c: seq<Byte>)
    ensures a + (b + c) == a + b + c
  {
  }

  lemma ReadIs<C>(x: Ctx<C>, data: seq<Byte>, user: seq<UserOp>)
    requires data != []
    ensures HandleRead(x, Offers(data), user) == UseAll(Fed(x, data), user)
  {
  }

  /** A read that finds bytes adds them to the input and then runs the message callback on all that
      is unread; all of it was read, and is used or left. */
  lemma ReadEffect<C>(x: Ctx<C>, data: seq<Byte>, user: seq<UserOp>)
    requires data != []
    ensures var y := HandleRead(x, Offers(data), user);
            && y == UseAll(Fed(x, data), user)
            && Received(y.conn.trace) == Received(x.conn.trace) + data
            && Used(y.conn.trace) + y.conn.input == Used(x.conn.trace) + x.conn.input + data
  {
    ReadIs(x, data, user);
    FedInput(x, data);
    UseAllInput(Fed(x, data), user);
  }

  // ---- Dispatch ----

  /** The mask and the answers of this dispatch do not end the connection. */
  predicate GoesOn(revents: Mask, env: Env) {
    && !(Hup in revents && In !in revents)
    && !((In in revents || Pri in revents) && env.read == Offers([]))
  }

  /** The connection after the read branch. */
  function AfterRead<C>(x: Ctx<C>, revents: Mask, env: Env): Ctx<C> {
    if (In in revents || Pri in revents) && env.read.Offers? && env.read.data != []
    then UseAll(Fed(x, env.read.data), env.reading) else x
  }

  lemma AfterReadIs<C>(x: Ctx<C>, revents: Mask, env: Env)
    requires GoesOn(revents, env)
    ensures OnReadable(OnHangup(x, revents, env.closing), revents, env.read, env.reading) == AfterRead(x, revents, env)
  {
  }

  lemma AfterReadGood<C>(x: Ctx<C>, revents: Mask, env: Env, chans: map<C, Chan>)
    requires Good(x, chans) && IsOpen(x.conn) && !IsDestroyed(x.conn)
    ensures var mid := AfterRead(x, revents, env);
            Good(mid, chans[x.self := mid.conn.chan]) && IsOpen(mid.conn) && !IsDestroyed(mid.conn)
            && mid.self == x.self
  {
    assert chans[x.self := x.conn.chan] == chans;
    if env.read.Offers? {
      assert Fed(x, env.read.data) == Receive(x, env.read.data);
      ReceiveGood(x, env.read.data, chans);
      UseAllGood(Fed(x, env.read.data), env.reading, chans);
    }
  }

  /** One dispatch of an open connection: first the bytes on offer are read and the user's operations
      run, if the mask says so; then, if it says that there is room, as many waiting bytes as fit
      are written, those the user has just sent among them. */
  lemma DispatchEffect<C>(x: Ctx<C>, revents: Mask, env: Env, chans: map<C, Chan>)
    requires Good(x, chans) && IsOpen(x.conn) && !IsDestroyed(x.conn) && GoesOn(revents, env)
    ensures var mid, y := AfterRead(x, revents, env), HandleEvent(x, revents, env);
            var n := if Out in revents && env.write.Takes? then Min(env.write.room, |mid.conn.output|) else 0;
            && Written(y.conn.trace) == Written(mid.conn.trace) + mid.conn.output[..n]
            && y.conn.output == mid.conn.output[n..]
            && y.conn.state == mid.conn.state && SameInput(mid, y)
            && (n == 0 ==> y == mid)
  {
    AfterReadIs(x, revents, env);
    AfterReadGood(x, revents, env, chans);
    var mid := AfterRead(x, revents, env);
    WriteEffect(mid, env.write, chans[x.self := mid.conn.chan]);
  }

  /** Room to write, and nothing else: the bytes that fit leave the buffer for the kernel. */
  lemma DispatchWrites<C>(x: Ctx<C>, env: Env, chans: map<C, Chan>)
    requires Good(x, chans) && IsOpen(x.conn) && !IsDestroyed(x.conn)
    ensures var y := HandleEvent(x, {Out}, env);
            var n := if env.write.Takes? then Min(env.write.room, |x.conn.output|) else 0;
            && Written(y.conn.trace) == Written(x.conn.trace) + x.conn.output[..n]
            && y.conn.output == x.conn.output[n..] && SameInput(x, y)
  {
    DispatchEffect(x, {Out}, env, chans);
  }

  /** Bytes to read and room to write: the bytes are received, the callback runs, and what then
      waits is written. */
  lemma DispatchReadsThenWrites<C>(x: Ctx<C>, env: Env, chans: map<C, Chan>)
    requires Good(x, chans) && IsOpen(x.conn) && !IsDestroyed(x.conn) && env.read.Offers? && env.read.data != []
    ensures var mid, y := UseAll(Fed(x, env.read.data), env.reading), HandleEvent(x, {In, Out}, env);
            var n := if env.write.Takes? then Min(env.write.room, |mid.conn.output|) else 0;
            && Received(y.conn.trace) == Received(x.conn.trace) + env.read.data
            && Written(y.conn.trace) == Written(mid.conn.trace) + mid.conn.output[..n]
            && y.conn.output == mid.conn.output[n..] && y.conn.input == mid.conn.input
  {
    DispatchEffect(x, {In, Out}, env, chans);
    UseAllInput(Fed(x, env.read.data), env.reading);
  }

  // ---- Life and death ----

  /** An open connection that goes down leaves the kernel's set at once: nothing more is reported of
      it. */
  lemma CloseLeavesKernel<C>(x: Ctx<C>, chans: map<C, Chan>)
    requires Good(x, chans) && IsOpen(x.conn) && !IsDestroyed(x.conn)
    ensures var y := CloseBegin(x);
            && y.conn.chan.index == Deleted && y.conn.chan.events == NONE_EVENT
            && x.conn.chan.fd !in y.poll.epoll && y.poll.epoll == x.poll.epoll - {x.conn.chan.fd}
            && y.conn.trace == Then(x.conn.trace, Down) && y.conn.state == Disconnected
  {
    assert ChannelAgrees(x.poll, x.conn.chan, x.self);
    UpdateEffect(x.poll, chans, x.self, NONE_EVENT);
  }

  lemma {:induction false} UsePrefix<C>(x: Ctx<C>, ops: seq<UserOp>)
    ensures Prefix(x.conn.trace, UseAll(x, ops).conn.trace)
  {
    if ops != [] {
      var mid := UseAll(x, ops[..|ops| - 1]);
      UsePrefix(x, ops[..|ops| - 1]);
      OnePrefix(mid, ops[|ops| - 1]);
      PrefixTrans(x.conn.trace, mid.conn.trace, UseAll(x, ops).conn.trace);
    }
  }

  lemma OnePrefix<C>(x: Ctx<C>, op: UserOp)
    ensures Prefix(x.conn.trace, Use(x, op).conn.trace)
  {
    if op.DoSend? {
      SendPrefix(x, op.message, op.answer);
    }
  }

  lemma SendPrefix<C>(x: Ctx<C>, message: seq<Byte>, answer: WriteAnswer)
    ensures Prefix(x.conn.trace, Send(x, message, answer).conn.trace)
  {
  }

  lemma {:induction false} PrefixTrans(p: Trace, q: Trace, t: Trace)
    requires Prefix(p, q) && Prefix(q, t)
    ensures Prefix(p, t)
  {
    if q != t {
      PrefixTrans(p, q, t.before);
    }
  }

  /** Closing: the user is told first, and does what the user does with the connection already down
      and out of the kernel's set; only then does the server forget it and queue its end, last. */
  lemma CloseEffect<C>(x: Ctx<C>, user: seq<UserOp>, chans: map<C, Chan>)
    requires Good(x, chans) && IsOpen(x.conn) && !IsDestroyed(x.conn)
    ensures var told, y := UseAll(CloseBegin(x), user), HandleClose(x, user);
            && Prefix(Then(x.conn.trace, Down), told.conn.trace) && y.conn.trace == Then(told.conn.trace, Closed)
            && y.loop.pending == told.loop.pending + [ConnectDestroyed(x.self)]
            && y.conn.state == Disconnected && y.conn.input == told.conn.input && y.conn.output == told.conn.output
            && y.conn.chan.fd !in y.poll.epoll && y.conn.chan.fd == x.conn.chan.fd
  {
    CloseLeavesKernel(x, chans);
    ClosingGood(x, user, chans);
    CloseBeginGood(x, chans);
    UsePrefix(CloseBegin(x), user);
    var down := CloseBegin(x);
    UseAllGood(down, user, chans[x.self := down.conn.chan]);
    StaysOut(UseAll(down, user), chans[x.self := UseAll(down, user).conn.chan]);
  }

  lemma StaysOut<C>(x: Ctx<C>, chans: map<C, Chan>)
    requires Good(x, chans) && x.conn.chan.index == Deleted
    ensures x.conn.chan.fd !in x.poll.epoll
  {
    assert ChannelAgrees(x.poll, chans[x.self], x.self);
  }

  /** connectEstablished: up, read by the kernel's set from then on, and then the user's callback. */
  lemma EstablishEffect<C>(x: Ctx<C>, user: seq<UserOp>, chans: map<C, Chan>)
    requires Good(x, chans) && x.conn.state == Connecting && x.conn.output == []
    requires x.conn.chan.fd !in x.poll.channels && !IsDestroyed(x.conn)
    ensures var up, y := ConnectEstablished(x), Establish(x, user);
            && up.conn.state == Connected && up.conn.trace == Then(x.conn.trace, Up)
            && x.conn.chan.fd in up.poll.epoll && up.poll.epoll[x.conn.chan.fd] == Interest(READ_EVENT, x.self)
            && y == UseAll(up, user) && Good(y, chans[x.self := y.conn.chan]) && IsOpen(y.conn)
  {
    EstablishedGood(x, chans);
    var up := ConnectEstablished(x);
    var chans' := chans[x.self := up.conn.chan];
    assert ChannelAgrees(up.poll, chans'[x.self], x.self);
    UseAllGood(up, user, chans');
    assert chans'[x.self := UseAll(up, user).conn.chan] == chans[x.self := UseAll(up, user).conn.chan];
  }

  /** connectDestroyed: a connection still connected goes down first, and its user is told and may
      act; then the channel leaves the poller and the kernel, last of all. */
  lemma DestroyEffect<C>(x: Ctx<C>, user: seq<UserOp>, chans: map<C, Chan>)
    requires Good(x, chans) && x.conn.state in {Connected, Disconnecting, Disconnected} && !IsDestroyed(x.conn)
    ensures var told := if x.conn.state == Connected then UseAll(CloseBegin(x), user) else x;
            var y := ConnectDestroy(x, user);
            && y.conn.trace == Then(told.conn.trace, Destroyed) && y.conn.chan.index == New
            && y.conn.chan.fd == x.conn.chan.fd && y.conn.chan.fd !in y.poll.epoll && y.conn.chan.fd !in y.poll.channels
            && y.conn.state == (if x.conn.state == Connected then Disconnected else x.conn.state)
            && Downs(y) == Downs(x) + (if x.conn.state == Connected then 1 else 0)
  {
    assert chans[x.self := x.conn.chan] == chans;
    if x.conn.state == Connected {
      ClosingGood(x, user, chans);
      CloseBeginGood(x, chans);
      UseAllGood(CloseBegin(x), user, chans[x.self := CloseBegin(x).conn.chan]);
      var told := UseAll(CloseBegin(x), user);
      EndEffect(told, chans[x.self := told.conn.chan]);
    } else {
      EndEffect(x, chans);
    }
  }

  lemma EndEffect<C>(x: Ctx<C>, chans: map<C, Chan>)
    requires Good(x, chans) && x.conn.state in {Disconnecting, Disconnected} && !IsDestroyed(x.conn)
    ensures var y := DestroyEnd(x);
            && y.conn.chan == x.conn.chan.(index := New) && y.conn.state == x.conn.state && Downs(y) == Downs(x)
            && y.conn.chan.fd !in y.poll.epoll && y.conn.chan.fd !in y.poll.channels
  {
    assert ChannelAgrees(x.poll, chans[x.self], x.self);
    RemoveEffect(x.poll, chans, x.self);
  }
}
