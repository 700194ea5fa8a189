/** The single-loop server as one machine: connections, poller, loop, map of connections, open
    descriptors. Its labels are the smallest steps between which user code may run, so a run is
    any interleaving of events, kernel answers, tasks and whatever callbacks do to any
    connection. */
module Server {
  import opened Kernel
  import opened PollSpec
  import opened LoopSpec
  import opened ConnSpec
  import opened Naming

  /** Connections are numbered as they are accepted. A number is never used again; a descriptor
      may be. */
  type Id = nat

  datatype Phase = Polling | Events | Functors | Stopped

  /** The branch of handleEventWithGuard that is next, and where in the present branch we are: not
      in one, in the message callback, in the callback of a closing connection, or back from that
      and before the close callback. */
  datatype Stage = AtHangup | AtReadable | AtWritable
  datatype Spot = Here | InMessage | InDown | AtCloseCallback

  /** What the loop thread is doing inside an event or a task. */
  datatype Activity =
    | Idle
    | InTask
    | Handling(id: Id, revents: Mask, stage: Stage, spot: Spot)
    | Ending(id: Id, inUser: bool)

  datatype Ready = Ready(id: Id, revents: Mask)

  /** owed counts the wake-up writes that other threads have still to make for tasks they pushed;
      batch is what is left of the functors swapped, ran all the functors begun so far. */
  datatype World = World(
    name: string, ipPort: string, completes: bool,
    conns: seq<Conn>,
    freed: set<Id>,
    openFds: set<int>,
    connections: map<string, Id>,
    poll: Poll<Id>,
    loop: LoopState<Functor<Id>>,
    owed: nat,
    batch: seq<Functor<Id>>,
    ran: seq<Functor<Id>>,
    phase: Phase,
    active: seq<Ready>,
    activity: Activity,
    dangling: bool)

  /** The n-th connection, counted from zero, is named while nextConnId_ is n + 1. */
  function NameOf(w: World, id: Id): string {
    ConnName(w.name, w.ipPort, id + 1)
  }

  function At(w: World, id: Id): Ctx<Id>
    requires id < |w.conns|
  {
    Ctx(id, w.conns[id], w.poll, w.loop)
  }

  function Put(w: World, x: Ctx<Id>): World
    requires x.self < |w.conns|
  {
    w.(conns := w.conns[x.self := x.conn], poll := x.poll, loop := x.loop)
  }

  predicate InMap(w: World, id: Id) {
    NameOf(w, id) in w.connections && w.connections[NameOf(w, id)] == id
  }

  /** Some queued or running task holds the connection. */
  predicate Names(f: Functor<Id>, id: Id) {
    !f.UserTask? && f.conn == id
  }

  /** The reactor holds a reference: the map, a task, or the guard of the event or task being
      handled. Whatever references user code keeps are on top of these. */
  ghost predicate Held(w: World, id: Id) {
    || id in w.connections.Values
    || (exists f :: (f in w.loop.pending || f in w.batch) && Names(f, id))
    || ((w.activity.Handling? || w.activity.Ending?) && w.activity.id == id)
  }

  predicate UserRuns(w: World) {
    match w.activity
    case Idle => false
    case InTask => true
    case Handling(_, _, _, spot) => spot == InMessage || spot == InDown
    case Ending(_, inUser) => inUser
  }

  datatype Label =
    | PollReturns(ready: seq<Ready>)
    | Dispatch
    | Accept(fd: int)
    | ReadWakeup
    | EventsDone
    | RunFunctor
    | FunctorsDone
    | Go(read: ReadAnswer, write: WriteAnswer)   // the reactor's own next step
    | User(id: Id, op: UserOp)                   // user code uses any connection it still holds
    | UserQueue(task: nat)
    | ForeignPush(task: nat)                     // another thread's queueInLoop, up to the push
    | ForeignWake                                // and its eventfd write
    | Return                                     // user code returns
    | Free(id: Id)                               // the last reference goes, the descriptor closes
    | Stop                                       // loop() returns
    | Teardown(id: Id)                           // the server's destructor reaches a connection

  /** epoll_wait returns each registered channel at most once, with bits asked for, or EPOLLERR or
      EPOLLHUP, which need not be asked for. */
  ghost predicate Reported(w: World, ready: seq<Ready>) {
    && (forall i, j :: 0 <= i < j < |ready| ==> ready[i].id != ready[j].id)
    && (forall i :: 0 <= i < |ready| ==> Pollable(w, ready[i]))
  }

  ghost predicate Pollable(w: World, r: Ready) {
    exists fd <- w.poll.epoll :: w.poll.epoll[fd].ptr == r.id && r.revents <= w.poll.epoll[fd].mask + {Err, Hup}
  }

  ghost predicate Enabled(w: World, l: Label) {
    match l
    case PollReturns(ready) => w.phase == Polling && w.activity == Idle && Reported(w, ready)
    case Dispatch => w.phase == Events && w.activity == Idle && w.active != []
    case Accept(fd) => w.phase == Events && w.activity == Idle && fd !in w.openFds && |w.conns| + 2 <= INT_MAX
    case ReadWakeup => w.phase == Events && w.activity == Idle
    case EventsDone => w.phase == Events && w.activity == Idle && w.active == []
    case RunFunctor => w.phase == Functors && w.activity == Idle && w.batch != []
    case FunctorsDone => w.phase == Functors && w.activity == Idle && w.batch == []
    case Go(_, _) => w.activity != Idle && !UserRuns(w)
    case User(id, op) =>
      UserRuns(w) && id < |w.conns| && id !in w.freed && (op.DoSend? ==> |op.message| <= INT_MAX)
    case UserQueue(_) => UserRuns(w)
    case ForeignPush(_) => true
    case ForeignWake => 0 < w.owed
    case Return => UserRuns(w)
    case Free(id) => id < |w.conns| && id !in w.freed && !Held(w, id)
    case Stop => w.phase == Polling && w.activity == Idle
    case Teardown(id) => w.phase == Stopped && w.activity == Idle && id < |w.conns| && InMap(w, id)
  }

  /** The step of handleEventWithGuard that is next. */
  function Advance(w: World, read: ReadAnswer, write: WriteAnswer): World
    requires w.activity.Handling? && w.activity.spot == Here && w.activity.id < |w.conns|
  {
    var a := w.activity;
    match a.stage
    case AtHangup =>
      if Hup in a.revents && In !in a.revents
      then Put(w, CloseBegin(At(w, a.id))).(activity := a.(stage := AtReadable, spot := InDown))
      else w.(activity := a.(stage := AtReadable))
    case AtReadable =>
      if (In !in a.revents && Pri !in a.revents) || read.Fails? then w.(activity := a.(stage := AtWritable))
      else if read.data == []
      then Put(w, CloseBegin(At(w, a.id))).(activity := a.(stage := AtWritable, spot := InDown))
      else Put(w, Receive(At(w, a.id), read.data)).(activity := a.(stage := AtWritable, spot := InMessage))
    case AtWritable =>
      (if Out in a.revents then Put(w, HandleWrite(At(w, a.id), write)) else w).(activity := Idle)
  }

  /** removeConnectionInLoop. */
  function Forget(w: World, id: Id): World
    requires id < |w.conns|
  {
    Put(w, CloseEnd(At(w, id))).(connections := w.connections - {NameOf(w, id)})
  }

  /** connectDestroyed up to the user's callback, if it makes one. */
  function BeginEnding(w: World, id: Id): World
    requires id < |w.conns|
  {
    Put(w, DestroyBegin(At(w, id))).(activity := Ending(id, w.conns[id].state == Connected))
  }

  /** newConnection, with connectEstablished up to the user's callback. */
  function Enter(w: World, fd: int): World {
    var id := |w.conns|;
    var entered := w.(conns := w.conns + [NewConn(fd, w.completes)],
                      connections := w.connections[NameOf(w, id) := id],
                      openFds := w.openFds + {fd});
    Put(entered, ConnectEstablished(At(entered, id))).(activity := InTask)
  }

  ghost predicate WellFormed(w: World) {
    && ((w.activity.Handling? || w.activity.Ending?) ==> w.activity.id < |w.conns|)
    && (forall f :: f in w.batch && !f.UserTask? ==> f.conn < |w.conns|)
  }

  ghost function Next(w: World, l: Label): World
    requires Enabled(w, l) && WellFormed(w)
  {
    match l
    case PollReturns(ready) => w.(phase := Events, active := ready)
    case Dispatch =>
      var r := w.active[0];
      w.(active := w.active[1..], activity := Handling(r.id, r.revents, AtHangup, Here),
         dangling := w.dangling || r.id in w.freed || r.id >= |w.conns|)
    case Accept(fd) => Enter(w, fd)
    case ReadWakeup => w.(loop := w.loop.(counter := 0))
    case EventsDone =>
      w.(phase := Functors, batch := w.loop.pending, loop := w.loop.(pending := [], calling := true))
    case RunFunctor =>
      var f := w.batch[0];
      var w1 := w.(batch := w.batch[1..], ran := w.ran + [f]);
      if f.ConnectDestroyed? then BeginEnding(w1, f.conn).(dangling := w.dangling || f.conn in w.freed)
      else w1.(activity := InTask, dangling := w.dangling || (!f.UserTask? && f.conn in w.freed))
    case FunctorsDone => w.(phase := Polling, loop := w.loop.(calling := false))
    case Go(read, write) =>
      if w.activity.Ending? then Put(w, DestroyEnd(At(w, w.activity.id))).(activity := Idle)
      else if w.activity.spot == AtCloseCallback
      then Forget(w, w.activity.id).(activity := w.activity.(spot := Here))
      else Advance(w, read, write)
    case User(id, op) => Put(w, Use(At(w, id), op))
    case UserQueue(task) => w.(loop := Queue(w.loop, UserTask(task), true))
    case ForeignPush(task) => w.(loop := Push(w.loop, UserTask(task)), owed := w.owed + 1)
    case ForeignWake => w.(loop := Wakeup(w.loop), owed := w.owed - 1)
    case Return =>
      (match w.activity
       case InTask => w.(activity := Idle)
       case Handling(id, revents, stage, spot) =>
         w.(activity := Handling(id, revents, stage, if spot == InDown then AtCloseCallback else Here))
       case Ending(id, _) => w.(activity := Ending(id, false))
       case Idle => w)
    case Free(id) => w.(freed := w.freed + {id}, openFds := w.openFds - {w.conns[id].chan.fd})
    case Stop => w.(phase := Stopped)
    case Teardown(id) => BeginEnding(w.(connections := w.connections - {NameOf(w, id)}), id)
  }

  /** A server about to poll: no connections yet, and the descriptors of the listening socket, the
      eventfd and the like open. */
  ghost predicate Init(w: World) {
    && |w.ipPort| <= LONGEST_IP_PORT
    && w.conns == [] && w.freed == {} && w.connections == map[]
    && w.poll == Poll(map[], map[], false, false) && w.loop == LoopState([], false, 0) && w.owed == 0
    && w.batch == [] && w.ran == []
    && w.phase == Polling && w.active == [] && w.activity == Idle && !w.dangling
  }
}
