/** Whole runs of one connection object, from its birth on: any calls, any events, any kernel. */
module ConnectionRuns {
  import opened Kernel
  import opened PollSpec
  import opened ConnSpec
  import opened TraceSpec
  import opened ConnProofs
  import opened ConnTheorems
  import opened Reactor
  import opened Connections

  /** The user calls from the loop's thread, or the poller reports an event. */
  datatype Turn = Call(op: UserOp) | Event(revents: Mask, env: Env)

  ghost predicate Possible(turn: Turn) {
    match turn
    case Call(op) => Manageable([op])
    case Event(_, env) => Manageable(env.closing) && Manageable(env.reading)
  }

  /** chans are all the channels of the poller, this connection's own apart. */
  ghost predicate Sane(conn: TcpConnection, chans: map<Channel, Chan>)
    reads conn, conn.socket, conn.channel, conn.inputBuffer, conn.inputBuffer.data
    reads conn.outputBuffer, conn.outputBuffer.data, conn.loop, conn.loop.poller
  {
    conn.Valid() && Alive(conn.View(), chans[conn.channel := conn.channel.View()])
  }

  method TakeTurn(conn: TcpConnection, turn: Turn, ghost chans: map<Channel, Chan>)
    requires Sane(conn, chans) && Possible(turn)
    modifies conn.Footprint(), conn.server`connections
    ensures Sane(conn, chans) && conn.Kept()
  {
    ghost var x := conn.View();
    match turn
    case Call(op) =>
      conn.Callback([op]);
      UseAllAlive(x, [op], chans);
    case Event(revents, env) =>
      conn.channel.revents := revents;
      assert conn.View() == x;
      ghost var taken := conn.HandleEvent(env);
      DispatchDowns(x, revents, env.(read := taken), chans);
  }

  lemma UseAllAlive(x: Ctx<Channel>, ops: seq<UserOp>, chans: map<Channel, Chan>)
    requires Alive(x, chans[x.self := x.conn.chan])
    ensures var y := UseAll(x, ops); Alive(y, chans[y.self := y.conn.chan])
  {
    UseAllGood(x, ops, chans[x.self := x.conn.chan]);
    var y := UseAll(x, ops);
    assert chans[x.self := x.conn.chan][x.self := y.conn.chan] == chans[x.self := y.conn.chan];
  }

  lemma BornUp(x: Ctx<Channel>, chans: map<Channel, Chan>)
    requires Good(x, chans[x.self := x.conn.chan]) && x.conn.state == Connecting && x.conn.output == []
    requires x.conn.chan.fd !in x.poll.channels && !IsDestroyed(x.conn)
    ensures var y := ConnectEstablished(x); Alive(y, chans[y.self := y.conn.chan])
  {
    FirstUp(x, chans);
  }

  /** A connection on a descriptor of its own is alive after its connection callback. */
  lemma BornAlive(x: Ctx<Channel>, fd: int, completes: bool, user: seq<UserOp>, chans: map<Channel, Chan>)
    requires Available(x.poll, chans, x.self, fd) && x.conn == NewConn(fd, completes)
    ensures var y := Establish(x, user); Alive(y, chans[y.self := y.conn.chan])
  {
    NewConnGood(x.self, fd, completes, x.poll, x.loop, chans);
    BornUp(x, chans);
    UseAllAlive(ConnectEstablished(x), user, chans);
  }

  /** Whatever turns a connection takes, on a loop whose other channels are chans: what its socket
      has sent, followed by what its output buffer holds, is what it has taken, in order; what the
      user took from the input, followed by what the input buffer holds, is what was read; and the
      write side is shut down at most once, with nothing left to send. */
  method Serve(server: TcpServer, sockfd: int, user: seq<UserOp>, turns: seq<Turn>, ghost chans: map<Channel, Chan>)
    returns (conn: TcpConnection)
    requires server.Valid() && server.nextConnId < INT_MAX && Manageable(user)
    requires forall turn <- turns :: Possible(turn)
    requires Agreement(server.loop.poller.State(), chans)
    requires sockfd !in server.loop.poller.channels && sockfd !in server.loop.poller.epoll
    modifies server`nextConnId, server`connections, server.loop, server.loop.poller
    ensures conn.Valid()
    ensures conn.socket.sent + conn.outputBuffer.Contents() == Taken(conn.trace)
    ensures Used(conn.trace) + conn.inputBuffer.Contents() == Received(conn.trace)
    ensures conn.socket.writeShutdowns <= 1
    ensures conn.socket.writeShutdowns == 1 ==> conn.outputBuffer.Contents() == []
    ensures Legal(conn.trace) && Prompt(conn.trace, conn.hasWriteComplete)
  {
    conn := Birth(server, sockfd, user, chans);
    TakeTurns(conn, turns, chans);
    AtMostOneFin(conn.trace);
  }

  method Birth(server: TcpServer, sockfd: int, user: seq<UserOp>, ghost chans: map<Channel, Chan>)
    returns (conn: TcpConnection)
    requires server.Valid() && server.nextConnId < INT_MAX && Manageable(user)
    requires Agreement(server.loop.poller.State(), chans)
    requires sockfd !in server.loop.poller.channels && sockfd !in server.loop.poller.epoll
    modifies server`nextConnId, server`connections, server.loop, server.loop.poller
    ensures conn.server == server && conn.loop == server.loop && fresh(conn) && fresh(conn.socket)
    ensures fresh(conn.channel) && fresh(conn.inputBuffer) && fresh(conn.outputBuffer)
    ensures fresh(conn.inputBuffer.data) && fresh(conn.outputBuffer.data)
    ensures Sane(conn, chans)
  {
    ghost var poll, loop := server.loop.poller.State(), server.loop.State();
    conn := server.NewConnection(sockfd, user);
    ghost var x := Ctx(conn.channel, NewConn(sockfd, server.hasWriteComplete), poll, loop);
    BornAlive(x, sockfd, server.hasWriteComplete, user, chans);
    AliveIsSane(conn, Establish(x, user), chans);
  }

  lemma AliveIsSane(conn: TcpConnection, y: Ctx<Channel>, chans: map<Channel, Chan>)
    requires conn.Valid() && conn.View() == y && Alive(y, chans[y.self := y.conn.chan])
    ensures Sane(conn, chans)
  {
  }

  method TakeTurns(conn: TcpConnection, turns: seq<Turn>, ghost chans: map<Channel, Chan>)
    requires Sane(conn, chans) && forall turn <- turns :: Possible(turn)
    modifies conn.Footprint(), conn.server`connections
    ensures Sane(conn, chans)
  {
    for i := 0 to |turns|
      invariant Sane(conn, chans) && conn.Kept()
    {
      TakeTurn(conn, turns[i], chans);
    }
  }
}
