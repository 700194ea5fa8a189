/** One connection as a value, and what each of its operations does to it, to the poller and to
    the loop. The connection keeps a trace of what it did; the promises about a connection are
    promises about its trace. */
module ConnSpec {
  import opened Kernel
  import opened PollSpec
  import opened LoopSpec

  datatype State = Connecting | Connected | Disconnecting | Disconnected

  /** What an observer at the connection's edges sees. */
  datatype Obs =
    | Up                                         // the connection callback, connection established
    | Sent(message: seq<Byte>, now: nat)         // a message taken; so many of its bytes were written at once
    | Dropped(message: seq<Byte>)                // a message lost to a broken connection
    | Drained(bytes: seq<Byte>)                  // buffered bytes written later
    | Completed                                  // a write-complete notification queued
    | HighWater(size: nat)                       // a high-water notification queued
    | Marked(mark: Option<nat>)                  // the high-water mark changed
    | Arrived(bytes: seq<Byte>)                  // bytes read from the peer
    | Consumed(bytes: seq<Byte>)                 // bytes the user took from the input buffer
    | Shut                                       // shutdown asked for
    | Fin                                        // the write side shut down
    | Down                                       // the connection callback, connection gone
    | Closed                                     // the server told to forget the connection
    | Destroyed                                  // connectDestroyed finished

  /** What was observed so far, the latest observation outermost. */
  datatype Trace = Start | Then(before: Trace, last: Obs)

  /** ended tells whether the write side has been shut down; mark is the high-water mark while a
      high-water callback is set; completes tells whether a write-complete callback is set. */
  datatype Conn = Conn(
    state: State,
    ended: bool,
    chan: Chan,
    input: seq<Byte>,
    output: seq<Byte>,
    mark: Option<nat>,
    completes: bool,
    trace: Trace)

  /** What one connection's operations can touch. C names connections. */
  datatype Ctx<C> = Ctx(self: C, conn: Conn, poll: Poll<C>, loop: LoopState<Functor<C>>)

  function NewConn(fd: int, completes: bool): Conn {
    Conn(Connecting, false, Chan(fd, NONE_EVENT, New), [], [], None, completes, Start)
  }

  // ---- Small steps ----

  function Note<C>(x: Ctx<C>, o: Obs): Ctx<C> {
    x.(conn := x.conn.(trace := Then(x.conn.trace, o)))
  }

  function SetState<C>(x: Ctx<C>, state: State): Ctx<C> {
    x.(conn := x.conn.(state := state))
  }

  /** A channel setter: the mask changes and the poller is told. */
  function SetInterest<C>(x: Ctx<C>, events: Mask): Ctx<C> {
    var (poll, chan) := UpdateChannel(x.poll, x.conn.chan.(events := events), x.self);
    x.(poll := poll, conn := x.conn.(chan := chan))
  }

  function RemoveInterest<C>(x: Ctx<C>): Ctx<C> {
    var (poll, chan) := RemoveChannel(x.poll, x.conn.chan, x.self);
    x.(poll := poll, conn := x.conn.(chan := chan))
  }

  /** queueInLoop from the loop's own thread. */
  function Later<C>(x: Ctx<C>, f: Functor<C>): Ctx<C> {
    x.(loop := Queue(x.loop, f, true))
  }

  // ---- Sending ----

  function QueueCompletion<C>(x: Ctx<C>): Ctx<C> {
    if x.conn.completes then Note(Later(x, WriteComplete(x.self)), Completed) else x
  }

  /** A message taken with its rest still to be kept: the user is told if the backlog crosses the
      mark with it. */
  function TakeRest<C>(x: Ctx<C>, message: seq<Byte>, now: nat): Ctx<C>
    requires now < |message|
  {
    var size := |x.conn.output| + |message| - now;
    var sent := Note(x, Sent(message, now));
    if x.conn.mark.Some? && |x.conn.output| < x.conn.mark.value <= size
    then Note(Later(sent, HighWaterMark(x.self, size)), HighWater(size))
    else sent
  }

  /** Keeps the unwritten rest of a message, the first now bytes being with the kernel already. */
  function KeepRest<C>(x: Ctx<C>, message: seq<Byte>, now: nat): Ctx<C>
    requires now < |message|
  {
    var told := TakeRest(x, message, now);
    var kept := told.(conn := told.conn.(output := x.conn.output + message[now..]));
    if kept.conn.chan.IsWriting() then kept else SetInterest(kept, kept.conn.chan.events + WRITE_EVENT)
  }

  /** Nothing is pending, so the kernel is offered the message at once. */
  function SendNow<C>(x: Ctx<C>, message: seq<Byte>, answer: WriteAnswer): Ctx<C> {
    match Heard(x.conn.ended, answer)
    case Takes(room) =>
      if |message| <= room then QueueCompletion(Note(x, Sent(message, |message|)))
      else KeepRest(x, message, room)
    case Refuses(errno) =>
      if errno == BrokenPipe || errno == ConnectionReset then Note(x, Dropped(message))
      else if message == [] then Note(x, Sent(message, 0))
      else KeepRest(x, message, 0)
  }

  function SendInLoop<C>(x: Ctx<C>, message: seq<Byte>, answer: WriteAnswer): Ctx<C> {
    if x.conn.state == Disconnected then x
    else if !x.conn.chan.IsWriting() && x.conn.output == [] then SendNow(x, message, answer)
    else if message == [] then Note(x, Sent(message, 0))
    else KeepRest(x, message, 0)
  }

  function Send<C>(x: Ctx<C>, message: seq<Byte>, answer: WriteAnswer): Ctx<C> {
    if x.conn.state == Connected then SendInLoop(x, message, answer) else x
  }

  function ShutdownInLoop<C>(x: Ctx<C>): Ctx<C> {
    if x.conn.chan.IsWriting() then x else Note(x.(conn := x.conn.(ended := true)), Fin)
  }

  function Shutdown<C>(x: Ctx<C>): Ctx<C> {
    if x.conn.state == Connected then ShutdownInLoop(Note(SetState(x, Disconnecting), Shut)) else x
  }

  /** The kernel takes n bytes from the front of the output buffer. */
  function Drain<C>(x: Ctx<C>, n: nat): Ctx<C>
    requires n <= |x.conn.output|
  {
    Note(x.(conn := x.conn.(output := x.conn.output[n..])), Drained(x.conn.output[..n]))
  }

  /** The output buffer has just become empty. */
  function FinishDrain<C>(x: Ctx<C>): Ctx<C> {
    var quiet := QueueCompletion(SetInterest(x, x.conn.chan.events - WRITE_EVENT));
    if quiet.conn.state == Disconnecting then ShutdownInLoop(quiet) else quiet
  }

  function HandleWrite<C>(x: Ctx<C>, answer: WriteAnswer): Ctx<C> {
    var reply := Heard(x.conn.ended, answer);
    if !x.conn.chan.IsWriting() || reply.Refuses? || Min(reply.room, |x.conn.output|) == 0 then x
    else
      var drained := Drain(x, Min(reply.room, |x.conn.output|));
      if drained.conn.output != [] then drained else FinishDrain(drained)
  }

  // ---- Life and death ----

  /** connectEstablished up to its callback. */
  function ConnectEstablished<C>(x: Ctx<C>): Ctx<C> {
    var connected := SetState(x, Connected);
    Note(SetInterest(connected, connected.conn.chan.events + READ_EVENT), Up)
  }

  /** handleClose up to its first callback. */
  function CloseBegin<C>(x: Ctx<C>): Ctx<C> {
    Note(SetInterest(SetState(x, Disconnected), NONE_EVENT), Down)
  }

  /** The close callback: the server forgets the connection and queues its end. */
  function CloseEnd<C>(x: Ctx<C>): Ctx<C> {
    Later(Note(x, Closed), ConnectDestroyed(x.self))
  }

  /** connectDestroyed up to its callback, which only a still connected connection makes. */
  function DestroyBegin<C>(x: Ctx<C>): Ctx<C> {
    if x.conn.state == Connected then CloseBegin(x) else x
  }

  function DestroyEnd<C>(x: Ctx<C>): Ctx<C> {
    Note(RemoveInterest(x), Destroyed)
  }

  // ---- User code ----

  /** What a user callback may do to the connection. */
  datatype UserOp =
    | DoSend(message: seq<Byte>, answer: WriteAnswer)
    | DoShutdown
    | DoSetMark(mark: nat)
    | DoRetrieve(len: nat)

  function Use<C>(x: Ctx<C>, op: UserOp): Ctx<C> {
    match op
    case DoSend(message, answer) => Send(x, message, answer)
    case DoShutdown => Shutdown(x)
    case DoSetMark(mark) => Note(x.(conn := x.conn.(mark := Some(mark))), Marked(Some(mark)))
    case DoRetrieve(len) =>
      var n := Min(len, |x.conn.input|);
      Note(x.(conn := x.conn.(input := x.conn.input[n..])), Consumed(x.conn.input[..n]))
  }

  function UseAll<C>(x: Ctx<C>, ops: seq<UserOp>): Ctx<C> {
    if ops == [] then x else Use(UseAll(x, ops[..|ops| - 1]), ops[|ops| - 1])
  }

  /** Every message a callback sends has a length sendInLoop's int can hold. */
  ghost predicate Manageable(ops: seq<UserOp>) {
    forall op <- ops :: op.DoSend? ==> |op.message| <= INT_MAX
  }

  // ---- Dispatch, with every callback run to its end ----

  /** What one dispatch meets: what the kernel answers, and what each callback does. closing is the
      callback of a hang-up, reading that of the read event. */
  datatype Env = Env(closing: seq<UserOp>, read: ReadAnswer, reading: seq<UserOp>, write: WriteAnswer)

  function HandleClose<C>(x: Ctx<C>, user: seq<UserOp>): Ctx<C> {
    CloseEnd(UseAll(CloseBegin(x), user))
  }

  /** Bytes from the peer, up to the message callback. */
  function Receive<C>(x: Ctx<C>, data: seq<Byte>): Ctx<C> {
    Note(x.(conn := x.conn.(input := x.conn.input + data)), Arrived(data))
  }

  function HandleRead<C>(x: Ctx<C>, answer: ReadAnswer, user: seq<UserOp>): Ctx<C> {
    match answer
    case Fails => x
    case Offers(data) =>
      if data == [] then HandleClose(x, user)
      else UseAll(Receive(x, data), user)
  }

  function OnHangup<C>(x: Ctx<C>, revents: Mask, user: seq<UserOp>): Ctx<C> {
    if Hup in revents && In !in revents then HandleClose(x, user) else x
  }

  function OnReadable<C>(x: Ctx<C>, revents: Mask, answer: ReadAnswer, user: seq<UserOp>): Ctx<C> {
    if In in revents || Pri in revents then HandleRead(x, answer, user) else x
  }

  function OnWritable<C>(x: Ctx<C>, revents: Mask, answer: WriteAnswer): Ctx<C> {
    if Out in revents then HandleWrite(x, answer) else x
  }

  /** Channel::handleEventWithGuard: hang-up, error (only reported), read, write, in this order. */
  function HandleEvent<C>(x: Ctx<C>, revents: Mask, env: Env): Ctx<C> {
    OnWritable(OnReadable(OnHangup(x, revents, env.closing), revents, env.read, env.reading), revents, env.write)
  }

  function Establish<C>(x: Ctx<C>, user: seq<UserOp>): Ctx<C> {
    UseAll(ConnectEstablished(x), user)
  }

  function ConnectDestroy<C>(x: Ctx<C>, user: seq<UserOp>): Ctx<C> {
    DestroyEnd(if x.conn.state == Connected then UseAll(DestroyBegin(x), user) else DestroyBegin(x))
  }
}
