/** The connection as an object over its channel, its two buffers and its loop. Every method is
    proved to take the view of these objects where the functions of ConnSpec take a value. */
module Connections {
  import opened Kernel
  import opened Buffers
  import opened LoopSpec
  import opened Reactor
  import opened ConnSpec
  import opened TraceSpec
  import opened Naming
  import opened Sockets

  class TcpConnection {
    const loop: EventLoop
    const name: string
    const socket: Socket
    const channel: Channel
    const inputBuffer: Buffer
    const outputBuffer: Buffer
    const hasWriteComplete: bool
    const server: TcpServer
    var state: State
    var hasHighWater: bool
    var highWaterMark: nat
    ghost var trace: Trace

    /** The object's own trace is true of its socket: what it says was written and shut down is
        what the kernel has seen. */
    ghost predicate Valid()
      reads this, inputBuffer, outputBuffer, socket
    {
      && Shaped()
      && socket.sent == Written(trace) && socket.writeShutdowns == TallyOf(trace).fins
    }

    ghost predicate Shaped()
      reads this, inputBuffer, outputBuffer
    {
      && inputBuffer.Valid() && outputBuffer.Valid()
      && inputBuffer != outputBuffer && inputBuffer.data != outputBuffer.data
      && channel.loop == loop == server.loop
    }

    ghost function Footprint(): set<object>
      reads this, inputBuffer, outputBuffer
    {
      {this, socket, channel, loop, loop.poller, inputBuffer, inputBuffer.data, outputBuffer, outputBuffer.data}
    }

    /** The footprint has lost nothing and gained at most new arrays. */
    twostate predicate Kept()
      reads inputBuffer, outputBuffer
    {
      && (inputBuffer.data == old(inputBuffer.data) || fresh(inputBuffer.data))
      && (outputBuffer.data == old(outputBuffer.data) || fresh(outputBuffer.data))
    }

    ghost function ConnView(): Conn
      requires Shaped()
      reads this, socket`writeShutdowns, channel, inputBuffer, inputBuffer.data, outputBuffer, outputBuffer.data
    {
      Conn(state, 0 < socket.writeShutdowns, channel.View(), inputBuffer.Contents(), outputBuffer.Contents(),
           if hasHighWater then Some(highWaterMark) else None, hasWriteComplete, trace)
    }

    ghost function View(): Ctx<Channel>
      requires Shaped()
      reads this, socket`writeShutdowns, channel, inputBuffer, inputBuffer.data, outputBuffer, outputBuffer.data, loop, loop.poller
    {
      Ctx(channel, ConnView(), loop.poller.State(), loop.State())
    }

    constructor (server: TcpServer, name: string, sockfd: int)
      ensures Valid() && fresh(socket) && fresh(channel) && fresh(inputBuffer) && fresh(outputBuffer)
      ensures fresh(inputBuffer.data) && fresh(outputBuffer.data)
      ensures this.server == server && loop == server.loop && this.name == name && channel.fd == sockfd
      ensures ConnView() == NewConn(sockfd, server.hasWriteComplete)
    {
      this.server, this.name := server, name;
      loop, hasWriteComplete := server.loop, server.hasWriteComplete;
      socket := new Socket(sockfd);
      channel := new Channel(server.loop, sockfd);
      inputBuffer := new Buffer(INITIAL_SIZE);
      outputBuffer := new Buffer(INITIAL_SIZE);
      state := Connecting;
      hasHighWater, highWaterMark := false, 64 * 1024 * 1024;
      trace := Start;
    }

    // ---- Sending ----

    method Send(message: seq<Byte>, answer: WriteAnswer)
      requires Valid() && |message| <= INT_MAX
      modifies Footprint()
      ensures Valid() && Kept()
      ensures View() == ConnSpec.Send(old(View()), message, answer)
    {
      if state == Connected {
        SendInLoop(message, answer);
      }
    }

    method SendInLoop(message: seq<Byte>, answer: WriteAnswer)
      requires Valid() && |message| <= INT_MAX
      modifies Footprint()
      ensures Valid() && Kept()
      ensures View() == ConnSpec.SendInLoop(old(View()), message, answer)
    {
      var nwrote := 0;
      var faultError := false;
      if state == Disconnected {
        return;
      }
      ghost var before := View();
      if !channel.IsWriting() && outputBuffer.ReadableBytes() == 0 {
        nwrote, faultError := WriteNow(message, answer);
      } else if message == [] {
        NoteEmpty();
      }
      if !faultError && nwrote < |message| {
        assert View() == before;
        KeepsRest(before, message, answer, nwrote);
        KeepRest(message, nwrote);
      }
    }

    /** An empty message that queues nothing. */
    method NoteEmpty()
      requires Valid()
      modifies this`trace
      ensures Valid() && View() == Note(old(View()), Sent([], 0))
    {
      trace := Then(trace, Sent([], 0));
    }

    /** What sendInLoop does to a message it neither finishes nor drops. */
    lemma KeepsRest(x: Ctx<Channel>, message: seq<Byte>, answer: WriteAnswer, nwrote: nat)
      requires x.conn.state != Disconnected && nwrote < |message|
      requires var reply := Heard(x.conn.ended, answer);
               if x.conn.chan.IsWriting() || x.conn.output != [] then nwrote == 0
               else if reply.Takes? then nwrote == reply.room
               else nwrote == 0 && reply.errno != BrokenPipe && reply.errno != ConnectionReset
      ensures ConnSpec.SendInLoop(x, message, answer) == ConnSpec.KeepRest(x, message, nwrote)
    {
    }

    /** The part of sendInLoop that writes at once. A message left unfinished is not in the trace
        yet. */
    method WriteNow(message: seq<Byte>, answer: WriteAnswer) returns (nwrote: nat, faultError: bool)
      requires Valid()
      modifies this`trace, loop, socket`sent
      ensures var reply := old(socket.Reply(answer));
              && nwrote == (if reply.Takes? then Min(reply.room, |message|) else 0)
              && (faultError <==> reply.Refuses? && (reply.errno == BrokenPipe || reply.errno == ConnectionReset))
      ensures Shaped()
      ensures if !faultError && nwrote < |message|
              then Ahead(message, nwrote) && View() == old(View())
              else Valid() && View() == ConnSpec.SendNow(old(View()), message, answer)
    {
      var n, reply := socket.Write(message, answer);
      nwrote, faultError := if n >= 0 then n else 0, false;
      if n == |message| {
        TakeWhole(message);
      } else if n < 0 {
        if reply.errno == BrokenPipe || reply.errno == ConnectionReset {
          faultError := true;
          trace := Then(trace, Dropped(message));
        } else if message == [] {
          NoteEmpty();
        }
      }
    }

    /** The kernel has taken a whole message. */
    method TakeWhole(message: seq<Byte>)
      requires Shaped() && socket.sent == Written(trace) + message && socket.writeShutdowns == TallyOf(trace).fins
      modifies this`trace, loop
      ensures Valid() && View() == ConnSpec.QueueCompletion(Note(old(View()), Sent(message, |message|)))
    {
      assert message[..|message|] == message;
      trace := Then(trace, Sent(message, |message|));
      QueueCompletion();
    }

    /** The part of sendInLoop that keeps what the kernel did not take. */
    method KeepRest(message: seq<Byte>, nwrote: nat)
      requires Shaped() && nwrote < |message| && Ahead(message, nwrote)
      modifies Footprint()
      ensures Valid() && Kept()
      ensures View() == ConnSpec.KeepRest(old(View()), message, nwrote)
    {
      TakeRest(message, nwrote);
      outputBuffer.Append(message[nwrote..]);
      if !channel.IsWriting() {
        channel.EnableWriting();
      }
    }

    /** The kernel already has the first bytes of a message the trace does not show yet. */
    ghost predicate Ahead(message: seq<Byte>, nwrote: nat)
      requires nwrote < |message|
      reads this, socket
    {
      socket.sent == Written(trace) + message[..nwrote] && socket.writeShutdowns == TallyOf(trace).fins
    }

    method TakeRest(message: seq<Byte>, nwrote: nat)
      requires Shaped() && nwrote < |message| && Ahead(message, nwrote)
      modifies this`trace, loop
      ensures Valid() && View() == ConnSpec.TakeRest(old(View()), message, nwrote)
    {
      var remaining := |message| - nwrote;
      var oldLen := outputBuffer.ReadableBytes();
      trace := Then(trace, Sent(message, nwrote));
      if oldLen + remaining >= highWaterMark && oldLen < highWaterMark && hasHighWater {
        loop.QueueInLoop(HighWaterMark(channel, oldLen + remaining), true);
        trace := Then(trace, HighWater(oldLen + remaining));
      }
    }

    method QueueCompletion()
      requires Valid()
      modifies this`trace, loop
      ensures Valid() && View() == ConnSpec.QueueCompletion(old(View()))
    {
      if hasWriteComplete {
        loop.QueueInLoop(WriteComplete(channel), true);
        trace := Then(trace, Completed);
      }
    }

    // ---- Shutting down and draining ----

    method Shutdown()
      requires Valid()
      modifies Footprint()
      ensures Valid() && Kept()
      ensures View() == ConnSpec.Shutdown(old(View()))
    {
      if state == Connected {
        state := Disconnecting;
        trace := Then(trace, Shut);
        ShutdownInLoop();
      }
    }

    method ShutdownInLoop()
      requires Valid()
      modifies this`trace, socket
      ensures Valid() && View() == ConnSpec.ShutdownInLoop(old(View()))
    {
      if !channel.IsWriting() {
        socket.ShutdownWrite();
        trace := Then(trace, Fin);
      }
    }

    method HandleWrite(answer: WriteAnswer)
      requires Valid()
      modifies Footprint()
      ensures Valid() && Kept()
      ensures View() == ConnSpec.HandleWrite(old(View()), answer)
    {
      if channel.IsWriting() {
        var n := outputBuffer.WriteFd(socket, answer);
        if n > 0 {
          DrainOutput(n);
        }
      }
    }

    /** handleWrite once the kernel has taken n bytes. */
    method DrainOutput(n: nat)
      requires Shaped() && 0 < n <= |outputBuffer.Contents()| && Owed(n)
      modifies this`trace, socket, channel`events, channel`index, loop, loop.poller, outputBuffer
      ensures Valid() && Kept()
      ensures var drained := Drain(old(View()), n);
              View() == if drained.conn.output != [] then drained else ConnSpec.FinishDrain(drained)
    {
      TakeFromOutput(n);
      if outputBuffer.ReadableBytes() == 0 {
        FinishDrain();
      }
    }

    /** The kernel already has n bytes of the output buffer that the trace does not show yet. */
    ghost predicate Owed(n: nat)
      requires Shaped() && n <= |outputBuffer.Contents()|
      reads this, socket, inputBuffer, outputBuffer, outputBuffer.data
    {
      && socket.sent == Written(trace) + outputBuffer.Contents()[..n]
      && socket.writeShutdowns == TallyOf(trace).fins
    }

    /** The bytes the kernel took leave the output buffer. */
    method TakeFromOutput(n: nat)
      requires Shaped() && 0 < n <= |outputBuffer.Contents()| && Owed(n)
      modifies this`trace, outputBuffer
      ensures Valid() && Kept() && View() == Drain(old(View()), n)
    {
      trace := Then(trace, Drained(outputBuffer.Contents()[..n]));
      outputBuffer.Retrieve(n);
    }

    /** handleWrite once the output buffer is empty. */
    method FinishDrain()
      requires Valid()
      modifies this`trace, socket, channel`events, channel`index, loop, loop.poller
      ensures Valid() && View() == ConnSpec.FinishDrain(old(View()))
    {
      channel.DisableWriting();
      QueueCompletion();
      if state == Disconnecting {
        ShutdownInLoop();
      }
    }

    // ---- User code ----

    method SetHighWaterMark(mark: nat)
      requires Valid()
      modifies this
      ensures Valid() && Kept()
      ensures View() == Use(old(View()), DoSetMark(mark))
    {
      hasHighWater, highWaterMark := true, mark;
      trace := Then(trace, Marked(Some(mark)));
    }

    method TakeInput(len: nat)
      requires Valid()
      modifies this`trace, inputBuffer
      ensures Valid() && Kept() && View() == Use(old(View()), DoRetrieve(len))
    {
      ghost var n := Min(len, |inputBuffer.Contents()|);
      trace := Then(trace, Consumed(inputBuffer.Contents()[..n]));
      inputBuffer.Retrieve(len);
    }

    /** A user callback, as the list of what it does to this connection. */
    method Callback(ops: seq<UserOp>)
      requires Valid() && Manageable(ops)
      modifies Footprint()
      ensures Valid() && Kept()
      ensures View() == UseAll(old(View()), ops)
    {
      for i := 0 to |ops|
        invariant Valid() && Kept()
        invariant View() == UseAll(old(View()), ops[..i])
      {
        assert ops[..i + 1][..i] == ops[..i];
        match ops[i]
        case DoSend(message, answer) => Send(message, answer);
        case DoShutdown => Shutdown();
        case DoSetMark(mark) => SetHighWaterMark(mark);
        case DoRetrieve(len) => TakeInput(len);
      }
      assert ops[..|ops|] == ops;
    }

    // ---- Life and death ----

    method ConnectEstablished(user: seq<UserOp>)
      requires Valid() && Manageable(user)
      modifies Footprint()
      ensures Valid() && Kept()
      ensures View() == Establish(old(View()), user)
    {
      EstablishBegin();
      Callback(user);
    }

    /** connectEstablished up to the user's callback. */
    method EstablishBegin()
      requires Valid()
      modifies this`state, this`trace, channel`events, channel`index, loop.poller
      ensures Valid() && View() == ConnSpec.ConnectEstablished(old(View()))
    {
      state := Connected;
      channel.EnableReading();
      trace := Then(trace, Up);
    }

    method ConnectDestroyed(user: seq<UserOp>)
      requires Valid() && Manageable(user)
      modifies Footprint()
      ensures Valid() && Kept()
      ensures View() == ConnectDestroy(old(View()), user)
    {
      if state == Connected {
        CloseBegin();
        Callback(user);
      }
      channel.Remove();
      trace := Then(trace, Destroyed);
    }

    method HandleClose(user: seq<UserOp>)
      requires Valid() && Manageable(user)
      modifies Footprint(), server`connections
      ensures Valid() && Kept()
      ensures View() == ConnSpec.HandleClose(old(View()), user)
      ensures server.connections == old(server.connections) - {name}
    {
      CloseBegin();
      TellUser(user);
    }

    /** The two callbacks of handleClose. */
    method TellUser(user: seq<UserOp>)
      requires Valid() && Manageable(user)
      modifies Footprint(), server`connections
      ensures Valid() && Kept()
      ensures View() == ConnSpec.CloseEnd(UseAll(old(View()), user))
      ensures server.connections == old(server.connections) - {name}
    {
      Callback(user);
      CloseEnd();
    }

    /** handleClose up to the user's callback. */
    method CloseBegin()
      requires Valid()
      modifies this`state, this`trace, channel`events, channel`index, loop.poller
      ensures Valid() && View() == ConnSpec.CloseBegin(old(View()))
    {
      state := Disconnected;
      channel.DisableAll();
      trace := Then(trace, Down);
    }

    /** handleClose from the close callback on. */
    method CloseEnd()
      requires Valid()
      modifies this`trace, loop, server`connections
      ensures Valid() && View() == ConnSpec.CloseEnd(old(View()))
      ensures server.connections == old(server.connections) - {name}
    {
      trace := Then(trace, Closed);
      server.RemoveConnection(this);
    }

    /** The peer's bytes, or the end of them, or a failed read, which is only reported. Returns
        what the scatter read took of the bytes on offer. */
    method HandleRead(answer: ReadAnswer, user: seq<UserOp>) returns (taken: ReadAnswer)
      requires Valid() && Manageable(user)
      modifies Footprint(), server`connections
      ensures Valid() && Kept()
      ensures taken == Readable(answer, old(inputBuffer.Layout()))
      ensures View() == ConnSpec.HandleRead(old(View()), taken, user)
      ensures server.connections == old(server.connections) - if taken == Offers([]) then {name} else {}
    {
      var n;
      n, taken := ReadInput(answer);
      ActOnRead(n, user);
    }

    /** handleRead once it knows what the scatter read returned. */
    method ActOnRead(n: int, user: seq<UserOp>)
      requires Valid() && Manageable(user)
      modifies Footprint(), server`connections
      ensures Valid() && Kept()
      ensures View() == if n > 0 then UseAll(old(View()), user)
                        else if n == 0 then ConnSpec.HandleClose(old(View()), user)
                        else old(View())
      ensures server.connections == old(server.connections) - if n == 0 then {name} else {}
    {
      if n > 0 {
        Callback(user);
      } else if n == 0 {
        HandleClose(user);
      }
    }

    /** The scatter read of handleRead. */
    method ReadInput(answer: ReadAnswer) returns (n: int, taken: ReadAnswer)
      requires Valid()
      modifies this`trace, inputBuffer, inputBuffer.data
      ensures Valid() && Kept()
      ensures taken == Readable(answer, old(inputBuffer.Layout()))
      ensures n == if taken.Offers? then |taken.data| else -1
      ensures View() == if n > 0 then ConnSpec.Receive(old(View()), taken.data) else old(View())
    {
      n := inputBuffer.ReadFd(answer);
      taken := if answer.Offers? then Offers(answer.data[..n]) else Fails;
      if n > 0 {
        trace := Then(trace, Arrived(taken.data));
      } else {
        assert inputBuffer.Contents() == old(inputBuffer.Contents());
      }
    }

    /** Channel::handleEventWithGuard over this connection's callbacks. */
    method HandleEvent(env: Env) returns (ghost taken: ReadAnswer)
      requires Valid() && Manageable(env.closing) && Manageable(env.reading)
      modifies Footprint(), server`connections
      ensures Valid() && Kept()
      ensures taken.Offers? <==> env.read.Offers?
      ensures taken.Offers? ==> |taken.data| >= Min(|env.read.data|, EXTRA_SIZE) && taken.data <= env.read.data
      ensures View() == ConnSpec.HandleEvent(old(View()), old(channel.revents), env.(read := taken))
    {
      var revents := channel.revents;
      Hangup(revents, env.closing);
      taken := Receive(revents, env);
      if Out in revents {
        HandleWrite(env.write);
      }
    }

    method Hangup(revents: Mask, user: seq<UserOp>)
      requires Valid() && Manageable(user)
      modifies Footprint(), server`connections
      ensures Valid() && Kept() && View() == OnHangup(old(View()), revents, user)
    {
      if Hup in revents && In !in revents {
        HandleClose(user);
      }
    }

    method Receive(revents: Mask, env: Env) returns (taken: ReadAnswer)
      requires Valid() && Manageable(env.reading)
      modifies Footprint(), server`connections
      ensures Valid() && Kept() && View() == OnReadable(old(View()), revents, taken, env.reading)
      ensures taken.Offers? <==> env.read.Offers?
      ensures taken.Offers? ==> |taken.data| >= Min(|env.read.data|, EXTRA_SIZE) && taken.data <= env.read.data
    {
      taken := env.read;
      if In in revents || Pri in revents {
        ReadCapacityBounds(inputBuffer.Layout());
        taken := HandleRead(env.read, env.reading);
      }
    }
  }

  /** What a scatter read into a buffer of this shape takes of an answer. */
  ghost function Readable(answer: ReadAnswer, shape: Shape): ReadAnswer
    requires shape.Ordered()
  {
    match answer
    case Fails => Fails
    case Offers(data) => Offers(data[..Min(|data|, shape.ReadCapacity())])
  }

  class TcpServer {
    const loop: EventLoop
    const name: string
    const ipPort: string
    const hasWriteComplete: bool
    var nextConnId: nat
    var connections: map<string, TcpConnection>

    /** Every name in the map was made from a counter already passed. */
    ghost predicate Valid()
      reads this
    {
      && |ipPort| <= LONGEST_IP_PORT && 1 <= nextConnId <= INT_MAX
      && forall n <- connections :: Given(n)
    }

    ghost predicate Given(connName: string)
      reads this`nextConnId
    {
      exists id :: 1 <= id < nextConnId && connName == ConnName(name, ipPort, id)
    }

    constructor (loop: EventLoop, name: string, ipPort: string, hasWriteComplete: bool)
      requires |ipPort| <= LONGEST_IP_PORT
      ensures Valid() && connections == map[] && nextConnId == 1
      ensures this.loop == loop && this.name == name && this.ipPort == ipPort
      ensures this.hasWriteComplete == hasWriteComplete
    {
      this.loop, this.name, this.ipPort, this.hasWriteComplete := loop, name, ipPort, hasWriteComplete;
      nextConnId, connections := 1, map[];
    }

    /** A new connection gets a name no connection has, is entered in the map under it, and is up
        when this returns. */
    method NewConnection(sockfd: int, user: seq<UserOp>) returns (conn: TcpConnection)
      requires Valid() && nextConnId < INT_MAX && Manageable(user)
      modifies this`nextConnId, this`connections, loop, loop.poller
      ensures Valid() && nextConnId == old(nextConnId) + 1
      ensures conn.name == ConnName(name, ipPort, old(nextConnId)) && conn.name !in old(connections)
      ensures connections == old(connections)[conn.name := conn] && conn.server == this && conn.loop == loop
      ensures fresh(conn) && conn.Valid() && fresh(conn.socket) && fresh(conn.channel)
      ensures fresh(conn.inputBuffer) && fresh(conn.outputBuffer)
      ensures fresh(conn.inputBuffer.data) && fresh(conn.outputBuffer.data)
      ensures conn.View() == Establish(Ctx(conn.channel, NewConn(sockfd, hasWriteComplete),
                                           old(loop.poller.State()), old(loop.State())), user)
    {
      conn := EnterConnection(sockfd);
      BringUp(conn, user);
    }

    /** On the loop's own thread connectEstablished runs at once. */
    method BringUp(conn: TcpConnection, user: seq<UserOp>)
      requires Valid() && conn.Valid() && Manageable(user)
      modifies conn.Footprint()
      ensures Valid() && nextConnId == old(nextConnId) && connections == old(connections)
      ensures conn.Valid() && conn.Kept() && conn.View() == Establish(old(conn.View()), user)
    {
      conn.ConnectEstablished(user);
    }

    /** newConnection before the connection is brought up. */
    method EnterConnection(sockfd: int) returns (conn: TcpConnection)
      requires Valid() && nextConnId < INT_MAX
      modifies this`nextConnId, this`connections
      ensures Valid() && nextConnId == old(nextConnId) + 1
      ensures conn.name == ConnName(name, ipPort, old(nextConnId)) && conn.name !in old(connections)
      ensures connections == old(connections)[conn.name := conn] && conn.server == this && conn.loop == loop
      ensures fresh(conn) && conn.Valid() && fresh(conn.socket) && fresh(conn.channel)
      ensures fresh(conn.inputBuffer) && fresh(conn.outputBuffer)
      ensures fresh(conn.inputBuffer.data) && fresh(conn.outputBuffer.data)
      ensures conn.View() == Ctx(conn.channel, NewConn(sockfd, hasWriteComplete),
                                 old(loop.poller.State()), old(loop.State()))
    {
      var connName := NextName();
      conn := new TcpConnection(this, connName, sockfd);
      Enter(conn);
    }

    /** The name of the next connection: no connection in the map has it. */
    method NextName() returns (connName: string)
      requires Valid() && nextConnId < INT_MAX
      modifies this`nextConnId
      ensures Valid() && nextConnId == old(nextConnId) + 1
      ensures connName == ConnName(name, ipPort, old(nextConnId)) && connName !in connections && Given(connName)
    {
      connName := ConnName(name, ipPort, nextConnId);
      forall id | 1 <= id < nextConnId ensures ConnName(name, ipPort, id) != connName {
        NamesDiffer(name, ipPort, id, nextConnId);
      }
      nextConnId := nextConnId + 1;
    }

    method Enter(conn: TcpConnection)
      requires Valid() && Given(conn.name)
      modifies this`connections
      ensures Valid() && connections == old(connections)[conn.name := conn]
    {
      connections := connections[conn.name := conn];
    }

    /** On the loop's own thread the removal runs at once. */
    method RemoveConnection(conn: TcpConnection)
      modifies this`connections, loop
      ensures connections == old(connections) - {conn.name}
      ensures loop.State() == Queue(old(loop.State()), ConnectDestroyed(conn.channel), true)
    {
      RemoveConnectionInLoop(conn);
    }

    method RemoveConnectionInLoop(conn: TcpConnection)
      modifies this`connections, loop
      ensures connections == old(connections) - {conn.name}
      ensures loop.State() == Queue(old(loop.State()), ConnectDestroyed(conn.channel), true)
    {
      connections := connections - {conn.name};
      loop.QueueInLoop(ConnectDestroyed(conn.channel), true);
    }
  }
}
