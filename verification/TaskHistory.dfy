/** What happens to the tasks a connection queues, its notifications among them: the loop gets
    exactly what the connection's trace tells, and begins each once and in order. */
module TaskHistory {
  import opened Kernel
  import opened LoopSpec
  import opened ConnSpec
  import opened TraceSpec
  import opened Server
  import opened ServerProofs
  import opened ServerTheorems

  // ---- One connection ----

  /** The loop's queue gained exactly what the trace says was queued meanwhile, in order. */
  ghost predicate Tells<C>(x: Ctx<C>, y: Ctx<C>) {
    var was, now := Queued(x.self, x.conn.trace), Queued(x.self, y.conn.trace);
    y.self == x.self && was <= now && y.loop.pending == x.loop.pending + now[|was|..]
  }

  lemma TellsTrans<C>(x: Ctx<C>, y: Ctx<C>, z: Ctx<C>)
    requires Tells(x, y) && Tells(y, z)
    ensures Tells(x, z)
  {
    var a, b, c := Queued(x.self, x.conn.trace), Queued(x.self, y.conn.trace), Queued(x.self, z.conn.trace);
    assert c[|a|..] == b[|a|..] + c[|b|..];
  }

  lemma CompletionTells<C>(x: Ctx<C>)
    ensures Tells(x, QueueCompletion(x))
  {
  }

  lemma KeepRestTells<C>(x: Ctx<C>, message: seq<Byte>, now: nat)
    requires now < |message|
    ensures Tells(x, KeepRest(x, message, now))
  {
  }

  lemma WholeTells<C>(x: Ctx<C>, message: seq<Byte>)
    ensures Tells(x, QueueCompletion(Note(x, Sent(message, |message|))))
  {
    var sent := Note(x, Sent(message, |message|));
    CompletionTells(sent);
    TellsTrans(x, sent, QueueCompletion(sent));
  }

  lemma SendNowTells<C>(x: Ctx<C>, message: seq<Byte>, answer: WriteAnswer)
    ensures Tells(x, SendNow(x, message, answer))
  {
    match Heard(x.conn.ended, answer)
    case Takes(room) =>
      if |message| <= room {
        WholeTells(x, message);
      } else {
        KeepRestTells(x, message, room);
      }
    case Refuses(_) =>
      if message != [] {
        KeepRestTells(x, message, 0);
      }
  }

  lemma SendTells<C>(x: Ctx<C>, message: seq<Byte>, answer: WriteAnswer)
    ensures Tells(x, Send(x, message, answer))
  {
    SendNowTells(x, message, answer);
    if message != [] {
      KeepRestTells(x, message, 0);
    }
  }

  lemma HandleWriteTells<C>(x: Ctx<C>, answer: WriteAnswer)
    ensures Tells(x, HandleWrite(x, answer))
  {
    var reply := Heard(x.conn.ended, answer);
    if reply.Takes? {
      var drained := Drain(x, Min(reply.room, |x.conn.output|));
      var off := SetInterest(drained, drained.conn.chan.events - WRITE_EVENT);
      CompletionTells(off);
      TellsTrans(x, off, QueueCompletion(off));
      var quiet := QueueCompletion(off);
      TellsTrans(x, quiet, ShutdownInLoop(quiet));
    }
  }

  lemma UseTells<C>(x: Ctx<C>, op: UserOp)
    ensures Tells(x, Use(x, op))
  {
    if op.DoSend? {
      SendTells(x, op.message, op.answer);
    }
  }

  lemma LifeTells<C>(x: Ctx<C>)
    ensures Tells(x, ConnectEstablished(x)) && Tells(x, CloseBegin(x)) && Tells(x, CloseEnd(x))
    ensures Tells(x, DestroyBegin(x)) && Tells(x, DestroyEnd(x))
  {
  }

  /** Every operation of a connection tells the loop exactly what it notes. */
  lemma {:induction false} UseAllTells<C>(x: Ctx<C>, ops: seq<UserOp>)
    ensures Tells(x, UseAll(x, ops))
  {
    if ops != [] {
      var mid := UseAll(x, ops[..|ops| - 1]);
      UseAllTells(x, ops[..|ops| - 1]);
      UseTells(mid, ops[|ops| - 1]);
      TellsTrans(x, mid, UseAll(x, ops));
    }
  }

  lemma HandleCloseTells<C>(x: Ctx<C>, user: seq<UserOp>)
    ensures Tells(x, HandleClose(x, user))
  {
    var begun := CloseBegin(x);
    var used := UseAll(begun, user);
    LifeTells(x);
    UseAllTells(begun, user);
    LifeTells(used);
    TellsTrans(x, begun, used);
    TellsTrans(x, used, CloseEnd(used));
  }

  lemma HandleReadTells<C>(x: Ctx<C>, answer: ReadAnswer, user: seq<UserOp>)
    ensures Tells(x, HandleRead(x, answer, user))
  {
    if answer.Offers? {
      HandleCloseTells(x, user);
      var fed := Receive(x, answer.data);
      UseAllTells(fed, user);
      TellsTrans(x, fed, UseAll(fed, user));
    }
  }

  /** So does a whole dispatch, whatever its mask, the kernel and the user's callbacks. */
  lemma HandleEventTells<C>(x: Ctx<C>, revents: Mask, env: Env)
    ensures Tells(x, HandleEvent(x, revents, env))
  {
    var hung := OnHangup(x, revents, env.closing);
    var fed := OnReadable(hung, revents, env.read, env.reading);
    HandleCloseTells(x, env.closing);
    HandleReadTells(hung, env.read, env.reading);
    HandleWriteTells(fed, env.write);
    TellsTrans(x, hung, fed);
    TellsTrans(x, fed, OnWritable(fed, revents, env.write));
  }

  // ---- The whole server ----

  /** Every functor ever queued, in order: begun, waiting in the batch, and pending. */
  function Tasks(w: World): seq<Functor<Id>> {
    w.ran + w.batch + w.loop.pending
  }

  /** The functors among fs that are one connection's. */
  function Of(fs: seq<Functor<Id>>, id: Id): seq<Functor<Id>> {
    if fs == [] then []
    else Of(fs[..|fs| - 1], id) + if Names(fs[|fs| - 1], id) then [fs[|fs| - 1]] else []
  }

  /** The tasks among fs that are the user's own. */
  function OwnOf(fs: seq<Functor<Id>>): seq<Functor<Id>> {
    if fs == [] then []
    else OwnOf(fs[..|fs| - 1]) + if fs[|fs| - 1].UserTask? then [fs[|fs| - 1]] else []
  }

  lemma {:induction false} OwnConcat(a: seq<Functor<Id>>, b: seq<Functor<Id>>)
    ensures OwnOf(a + b) == OwnOf(a) + OwnOf(b)
  {
    if b == [] {
      assert a + b == a;
    } else {
      assert (a + b)[..|a + b| - 1] == a + b[..|b| - 1];
      OwnConcat(a, b[..|b| - 1]);
    }
  }

  lemma {:induction false} AllOwn(fs: seq<Functor<Id>>)
    requires forall f <- fs :: f.UserTask?
    ensures OwnOf(fs) == fs
  {
    if fs != [] {
      var last := fs[|fs| - 1];
      assert last in fs && forall f <- fs[..|fs| - 1] :: f in fs;
      AllOwn(fs[..|fs| - 1]);
      assert fs == fs[..|fs| - 1] + [last];
    }
  }

  lemma {:induction false} NoneOwn(fs: seq<Functor<Id>>)
    requires forall f <- fs :: !f.UserTask?
    ensures OwnOf(fs) == []
  {
    if fs != [] {
      assert fs[|fs| - 1] in fs && forall f <- fs[..|fs| - 1] :: f in fs;
      NoneOwn(fs[..|fs| - 1]);
    }
  }

  /** The task of the user's own that a step queues, on the loop's thread or on another. */
  function QueuedTask(l: Label): seq<Functor<Id>> {
    match l
    case UserQueue(task) => [UserTask(task)]
    case ForeignPush(task) => [UserTask(task)]
    case _ => []
  }

  function QueuedTasks(labels: seq<Label>): seq<Functor<Id>> {
    if labels == [] then [] else QueuedTask(labels[0]) + QueuedTasks(labels[1..])
  }

  function ToldBy(w: World, id: Id): seq<Functor<Id>> {
    if id < |w.conns| then Queued(id, w.conns[id].trace) else []
  }

  ghost predicate TaskInv(w: World) {
    forall id: nat :: Of(Tasks(w), id) == ToldBy(w, id)
  }

  lemma {:induction false} OfConcat(a: seq<Functor<Id>>, b: seq<Functor<Id>>, id: Id)
    ensures Of(a + b, id) == Of(a, id) + Of(b, id)
  {
    if b == [] {
      assert a + b == a;
    } else {
      assert (a + b)[..|a + b| - 1] == a + b[..|b| - 1];
      OfConcat(a, b[..|b| - 1], id);
    }
  }

  lemma {:induction false} OfOne(fs: seq<Functor<Id>>, self: Id, id: Id)
    requires forall f <- fs :: Names(f, self)
    ensures Of(fs, id) == if id == self then fs else []
  {
    if fs != [] {
      var last := fs[|fs| - 1];
      assert last in fs && forall f <- fs[..|fs| - 1] :: f in fs;
      OfOne(fs[..|fs| - 1], self, id);
      assert fs == fs[..|fs| - 1] + [last];
    }
  }

  lemma {:induction false} QueuedNames(self: Id, t: Trace)
    ensures forall f <- Queued(self, t) :: Names(f, self)
  {
    if t.Then? {
      QueuedNames(self, t.before);
    }
  }

  /** One connection moves on and the loop is told of it. */
  lemma MovedTasks(w: World, w': World, y: Ctx<Id>)
    requires TaskInv(w) && y.self < |w.conns| && Tells(At(w, y.self), y)
    requires w'.conns == w.conns[y.self := y.conn]
    requires w'.ran == w.ran && w'.batch == w.batch && w'.loop.pending == y.loop.pending
    ensures TaskInv(w') && OwnOf(Tasks(w')) == OwnOf(Tasks(w))
  {
    var was, now := Queued(y.self, w.conns[y.self].trace), Queued(y.self, y.conn.trace);
    var more := now[|was|..];
    assert now == was + more;
    assert Tasks(w') == Tasks(w) + more;
    QueuedNames(y.self, y.conn.trace);
    OwnConcat(Tasks(w), more);
    assert forall f <- more :: f in now && Names(f, y.self);
    NoneOwn(more);
    forall id: nat ensures Of(Tasks(w'), id) == ToldBy(w', id) {
      MovedOf(w, w', y, more, id);
    }
  }

  lemma MovedOf(w: World, w': World, y: Ctx<Id>, more: seq<Functor<Id>>, id: Id)
    requires y.self < |w.conns| && w'.conns == w.conns[y.self := y.conn]
    requires Queued(y.self, y.conn.trace) == Queued(y.self, w.conns[y.self].trace) + more
    requires Tasks(w') == Tasks(w) + more && forall f <- more :: Names(f, y.self)
    requires Of(Tasks(w), id) == ToldBy(w, id)
    ensures Of(Tasks(w'), id) == ToldBy(w', id)
  {
    OfConcat(Tasks(w), more, id);
    OfOne(more, y.self, id);
  }

  /** No connection's trace changes, and at most the user's own task is queued. */
  lemma SameTasks(w: World, w': World, own: seq<Functor<Id>>)
    requires TaskInv(w) && w'.conns == w.conns && Tasks(w') == Tasks(w) + own
    requires forall f <- own :: f.UserTask?
    ensures TaskInv(w') && OwnOf(Tasks(w')) == OwnOf(Tasks(w)) + own
  {
    OwnConcat(Tasks(w), own);
    AllOwn(own);
    forall id: nat ensures Of(Tasks(w'), id) == ToldBy(w', id) {
      OfConcat(Tasks(w), own, id);
      NoneOf(own, id);
      assert Of(Tasks(w), id) == ToldBy(w, id);
    }
  }

  lemma {:induction false} NoneOf(own: seq<Functor<Id>>, id: Id)
    requires forall f <- own :: f.UserTask?
    ensures Of(own, id) == []
  {
    if own != [] {
      assert own[|own| - 1] in own && forall f <- own[..|own| - 1] :: f in own;
      NoneOf(own[..|own| - 1], id);
    }
  }

  lemma EnteredTasks(w: World, fd: int)
    requires TaskInv(w)
    ensures TaskInv(Enter(w, fd)) && OwnOf(Tasks(Enter(w, fd))) == OwnOf(Tasks(w))
  {
    var w' := Enter(w, fd);
    EnterIs(w, fd);
    NewcomerUp(w, fd);
    assert Tasks(w') == Tasks(w);
    forall id: nat ensures Of(Tasks(w'), id) == ToldBy(w', id) {
      assert Of(Tasks(w), id) == ToldBy(w, id);
    }
  }

  lemma AdvanceTasks(w: World, read: ReadAnswer, write: WriteAnswer)
    requires TaskInv(w) && w.activity.Handling? && w.activity.spot == Here && w.activity.id < |w.conns|
    ensures TaskInv(Advance(w, read, write)) && OwnOf(Tasks(Advance(w, read, write))) == OwnOf(Tasks(w))
  {
    match w.activity.stage
    case AtHangup => HangupTasks(w, read, write);
    case AtReadable => ReadableTasks(w, read, write);
    case AtWritable => WritableTasks(w, read, write);
  }

  lemma HangupTasks(w: World, read: ReadAnswer, write: WriteAnswer)
    requires TaskInv(w) && w.activity.Handling? && w.activity.spot == Here && w.activity.id < |w.conns|
    requires w.activity.stage == AtHangup
    ensures TaskInv(Advance(w, read, write)) && OwnOf(Tasks(Advance(w, read, write))) == OwnOf(Tasks(w))
  {
    var w' := Advance(w, read, write);
    if w'.activity.spot == InDown {
      ClosingTasks(w, w');
    } else {
      SameTasks(w, w', []);
    }
  }

  lemma ReadableTasks(w: World, read: ReadAnswer, write: WriteAnswer)
    requires TaskInv(w) && w.activity.Handling? && w.activity.spot == Here && w.activity.id < |w.conns|
    requires w.activity.stage == AtReadable
    ensures TaskInv(Advance(w, read, write)) && OwnOf(Tasks(Advance(w, read, write))) == OwnOf(Tasks(w))
  {
    var w' := Advance(w, read, write);
    match w'.activity.spot
    case InDown => ClosingTasks(w, w');
    case InMessage => MovedTasks(w, w', Receive(At(w, w.activity.id), read.data));
    case _ => SameTasks(w, w', []);
  }

  lemma WritableTasks(w: World, read: ReadAnswer, write: WriteAnswer)
    requires TaskInv(w) && w.activity.Handling? && w.activity.spot == Here && w.activity.id < |w.conns|
    requires w.activity.stage == AtWritable
    ensures TaskInv(Advance(w, read, write)) && OwnOf(Tasks(Advance(w, read, write))) == OwnOf(Tasks(w))
  {
    if Out in w.activity.revents {
      HandleWriteTells(At(w, w.activity.id), write);
      MovedTasks(w, Advance(w, read, write), HandleWrite(At(w, w.activity.id), write));
    } else {
      SameTasks(w, Advance(w, read, write), []);
    }
  }

  lemma ClosingTasks(w: World, w': World)
    requires TaskInv(w) && w.activity.Handling? && w.activity.id < |w.conns|
    requires var y := CloseBegin(At(w, w.activity.id));
             w'.conns == w.conns[w.activity.id := y.conn] && w'.loop == y.loop
    requires w'.ran == w.ran && w'.batch == w.batch
    ensures TaskInv(w') && OwnOf(Tasks(w')) == OwnOf(Tasks(w))
  {
    LifeTells(At(w, w.activity.id));
    MovedTasks(w, w', CloseBegin(At(w, w.activity.id)));
  }

  lemma GoTasks(w: World, read: ReadAnswer, write: WriteAnswer)
    requires TaskInv(w) && Enabled(w, Go(read, write)) && WellFormed(w)
    ensures TaskInv(Next(w, Go(read, write))) && OwnOf(Tasks(Next(w, Go(read, write)))) == OwnOf(Tasks(w))
  {
    var x := At(w, w.activity.id);
    var w' := Next(w, Go(read, write));
    if w.activity.Ending? {
      LifeTells(x);
      MovedTasks(w, w', DestroyEnd(x));
    } else if w.activity.spot == AtCloseCallback {
      LifeTells(x);
      MovedTasks(w, w', CloseEnd(x));
    } else {
      AdvanceTasks(w, read, write);
    }
  }

  lemma EndingTasks(w: World, id: Id)
    requires TaskInv(w) && id < |w.conns|
    ensures TaskInv(BeginEnding(w, id)) && OwnOf(Tasks(BeginEnding(w, id))) == OwnOf(Tasks(w))
  {
    LifeTells(At(w, id));
    MovedTasks(w, BeginEnding(w, id), DestroyBegin(At(w, id)));
  }

  lemma RunTasks(w: World)
    requires TaskInv(w) && Enabled(w, RunFunctor) && WellFormed(w)
    ensures TaskInv(Next(w, RunFunctor)) && OwnOf(Tasks(Next(w, RunFunctor))) == OwnOf(Tasks(w))
  {
    var f := w.batch[0];
    var begun := w.(batch := w.batch[1..], ran := w.ran + [f]);
    assert w.batch == [f] + w.batch[1..];
    assert Tasks(begun) == Tasks(w) + [];
    SameTasks(w, begun, []);
    if f.ConnectDestroyed? {
      EndingTasks(begun, f.conn);
      var w' := Next(w, RunFunctor);
      assert Tasks(w') == Tasks(BeginEnding(begun, f.conn)) + [];
      SameTasks(BeginEnding(begun, f.conn), w', []);
    } else {
      SameTasks(w, Next(w, RunFunctor), []);
    }
  }

  lemma TasksStep(w: World, l: Label)
    requires TaskInv(w) && Inv(w) && Enabled(w, l) && WellFormed(w)
    ensures TaskInv(Next(w, l)) && OwnOf(Tasks(Next(w, l))) == OwnOf(Tasks(w)) + QueuedTask(l)
  {
    match l
    case Go(read, write) => GoTasks(w, read, write);
    case User(id, op) =>
      UseTells(At(w, id), op);
      MovedTasks(w, Next(w, l), Use(At(w, id), op));
    case Accept(fd) => EnteredTasks(w, fd);
    case RunFunctor => RunTasks(w);
    case Teardown(id) =>
      var w1 := w.(connections := w.connections - {NameOf(w, id)});
      SameTasks(w, w1, []);
      EndingTasks(w1, id);
    case _ => OtherTasks(w, l);
  }

  lemma OtherTasks(w: World, l: Label)
    requires TaskInv(w) && Inv(w) && Enabled(w, l) && WellFormed(w)
    requires !l.Go? && !l.User? && !l.Accept? && !l.RunFunctor? && !l.Teardown?
    ensures TaskInv(Next(w, l)) && OwnOf(Tasks(Next(w, l))) == OwnOf(Tasks(w)) + QueuedTask(l)
  {
    SameTasks(w, Next(w, l), QueuedTask(l));
  }

  lemma {:induction false} LeadsKeepsTasks(w: World, labels: seq<Label>, w': World)
    requires TaskInv(w) && Inv(w) && Leads(w, labels, w')
    ensures TaskInv(w')
    ensures OwnOf(Tasks(w')) == OwnOf(Tasks(w)) + QueuedTasks(labels)
    decreases |labels|
  {
    if labels != [] {
      var next := Next(w, labels[0]);
      TasksStep(w, labels[0]);
      StepInv(w, labels[0]);
      LeadsKeepsTasks(next, labels[1..], w');
      Associate(OwnOf(Tasks(w)), labels, OwnOf(Tasks(next)), OwnOf(Tasks(w')));
    }
  }

  lemma Associate(was: seq<Functor<Id>>, labels: seq<Label>, next: seq<Functor<Id>>, now: seq<Functor<Id>>)
    requires labels != [] && next == was + QueuedTask(labels[0]) && now == next + QueuedTasks(labels[1..])
    ensures now == was + QueuedTasks(labels)
  {
  }

  /** In every reachable state, the functors of a connection that the loop has begun, has in its
      batch or has pending are together exactly those its trace says were queued, each once, in
      order and with their sizes. */
  lemma EveryTaskOnceInOrder(w: World, id: Id)
    requires Reachable(w) && id < |w.conns|
    ensures Of(w.ran, id) + Of(w.batch, id) + Of(w.loop.pending, id) == Queued(id, w.conns[id].trace)
  {
    var start, labels :| Init(start) && Leads(start, labels, w);
    InitInv(start);
    LeadsKeepsTasks(start, labels, w);
    OfConcat(w.ran + w.batch, w.loop.pending, id);
    OfConcat(w.ran, w.batch, id);
    assert Of(Tasks(w), id) == ToldBy(w, id);
  }

  /** Over every run, the user's own tasks begun, in the batch and pending are together those its
      steps have queued, whichever thread queued them, each once and in order. */
  lemma UserTasksOnceInOrder(start: World, labels: seq<Label>, w: World)
    requires Init(start) && Leads(start, labels, w)
    ensures OwnOf(w.ran) + OwnOf(w.batch) + OwnOf(w.loop.pending) == QueuedTasks(labels)
  {
    InitInv(start);
    LeadsKeepsTasks(start, labels, w);
    OwnConcat(w.ran + w.batch, w.loop.pending);
    OwnConcat(w.ran, w.batch);
    assert Tasks(start) == [];
  }

  /** The high-water notifications given, about to be given and queued are exactly those of the
      connection's upward crossings, in order, each with the backlog it left. */
  lemma HighWaterTasksAreCrossings(w: World, id: Id)
    requires Reachable(w) && id < |w.conns|
    ensures HighWatersIn(Of(w.ran, id) + Of(w.batch, id) + Of(w.loop.pending, id)) == Crossed(id, w.conns[id].trace)
  {
    EveryTaskOnceInOrder(w, id);
    EveryConnectionKeepsItsPromises(w, id);
    HighWatersQueued(id, w.conns[id].trace, w.conns[id].completes);
  }

  /** The write-complete notifications given, about to be given and queued were each queued when
      everything taken by then had been written; and each time a connection with the callback set
      had written all it owed, one was queued, and next. */
  lemma CompletionTasksAreTruthful(w: World, id: Id, i: nat, p: Trace, o: Obs)
    requires Reachable(w) && id < |w.conns|
    ensures var fs, t := Of(w.ran, id) + Of(w.batch, id) + Of(w.loop.pending, id), w.conns[id].trace;
            && (i < |fs| && fs[i] == WriteComplete(id) ==>
                  exists q :: Prefix(Then(q, Completed), t) && |Queued(id, q)| == i && Written(q) == Taken(q))
            && (w.conns[id].completes && Empties(p, o) && Prefix(Then(p, o), t) ==>
                  Queued(id, p) + [WriteComplete(id)] <= fs)
  {
    var t := w.conns[id].trace;
    EveryTaskOnceInOrder(w, id);
    EveryConnectionKeepsItsPromises(w, id);
    if i < |Queued(id, t)| && Queued(id, t)[i] == WriteComplete(id) {
      QueuedCompletionIsTruthful(id, t, i);
    }
    if w.conns[id].completes && Empties(p, o) && Prefix(Then(p, o), t) {
      EmptyingQueuesCompletion(id, p, o, t);
    }
  }
}
