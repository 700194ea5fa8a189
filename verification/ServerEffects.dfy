/** What the steps of the server accomplish, and that they make up whole operations: run from its
    first step to its last, with each callback doing what it does to the connection it is given, a
    dispatch or a task is the operation on that connection. */
module ServerEffects {
  import opened Kernel
  import opened PollSpec
  import opened LoopSpec
  import opened ConnSpec
  import opened TraceSpec
  import opened ConnProofs
  import opened ConnEffects
  import opened Naming
  import opened Server
  import opened ServerProofs
  import opened ServerTheorems
  import opened TaskHistory

  // ---- Runs ----

  ghost predicate CanReach(w: World, w': World) {
    exists labels :: Leads(w, labels, w')
  }

  lemma {:induction false} LeadsConcat(w: World, a: seq<Label>, mid: World, b: seq<Label>, w': World)
    requires Leads(w, a, mid) && Leads(mid, b, w')
    ensures Leads(w, a + b, w')
    decreases |a|
  {
    if a == [] {
      assert a + b == b;
    } else {
      LeadsConcat(Next(w, a[0]), a[1..], mid, b, w');
      assert (a + b)[1..] == a[1..] + b;
    }
  }

  lemma Onward(w: World, mid: World, w': World)
    requires CanReach(w, mid) && CanReach(mid, w')
    ensures CanReach(w, w')
  {
    var a :| Leads(w, a, mid);
    var b :| Leads(mid, b, w');
    LeadsConcat(w, a, mid, b, w');
  }

  lemma Stay(w: World)
    ensures CanReach(w, w)
  {
    assert Leads(w, [], w);
  }

  lemma Step(w: World, l: Label) returns (next: World)
    requires Inv(w) && Enabled(w, l)
    ensures WellFormed(w) && next == Next(w, l) && Inv(next) && CanReach(w, next)
  {
    StepInv(w, l);
    next := Next(w, l);
    assert Leads(next, [], next);
    LeadsCons(w, l, [], next);
  }

  // ---- User code ----

  /** User code running, it can do any operations to a connection that is not freed. */
  lemma {:induction false} UserRun(w: World, id: Id, ops: seq<UserOp>) returns (done: World)
    requires Inv(w) && UserRuns(w) && id < |w.conns| && id !in w.freed && Manageable(ops)
    ensures Inv(done) && CanReach(w, done)
    ensures UseAll(At(w, id), ops).self == id && done == Put(w, UseAll(At(w, id), ops))
  {
    if ops == [] {
      Stay(w);
      done := w;
    } else {
      var init, op := ops[..|ops| - 1], ops[|ops| - 1];
      var mid := UserRun(w, id, init);
      UseSelf(At(mid, id), op);
      assert op in ops;
      done := Step(mid, User(id, op));
      Onward(w, mid, done);
    }
  }

  lemma UseSelf<C>(x: Ctx<C>, op: UserOp)
    ensures Use(x, op).self == x.self
  {
  }

  // ---- One dispatch, step by step ----

  /** One connection, the poller, the loop, the map and what the loop thread does have changed. */
  function Became(w: World, y: Ctx<Id>, a: Activity, connections: map<string, Id>): World
    requires y.self < |w.conns|
  {
    Put(w, y).(activity := a, connections := connections)
  }

  lemma BecameTwice(w: World, x: Ctx<Id>, y: Ctx<Id>, a: Activity, b: Activity,
                    m: map<string, Id>, n: map<string, Id>)
    requires x.self == y.self < |w.conns|
    ensures Became(Became(w, x, a, m), y, b, n) == Became(w, y, b, n)
  {
    assert w.conns[x.self := x.conn][x.self := y.conn] == w.conns[x.self := y.conn];
  }

  ghost predicate Branch(w: World, stage: Stage) {
    Inv(w) && w.activity.Handling? && w.activity.stage == stage && w.activity.spot == Here
  }

  /** The close of the connection being handled, from its first step to its last. */
  lemma CloseRun(w: World, stage: Stage, user: seq<UserOp>) returns (done: World)
    requires Inv(w) && w.activity.Handling? && w.activity.spot == Here && Manageable(user)
    requires CanReach(w, CloseStep(w, stage))
    ensures Inv(done) && CanReach(w, done) && HandleClose(At(w, w.activity.id), user).self == w.activity.id
    ensures done == Became(w, HandleClose(At(w, w.activity.id), user), w.activity.(stage := stage),
                           w.connections - {NameOf(w, w.activity.id)})
  {
    var back := ToldRun(w, stage, user);
    done := ForgetRun(back);
    Onward(w, back, done);
    var id := w.activity.id;
    BecameTwice(w, At(back, id), CloseEnd(At(back, id)), back.activity, w.activity.(stage := stage),
                w.connections, done.connections);
  }

  lemma ToldRun(w: World, stage: Stage, user: seq<UserOp>) returns (back: World)
    requires Inv(w) && w.activity.Handling? && w.activity.spot == Here && Manageable(user)
    requires CanReach(w, CloseStep(w, stage))
    ensures Inv(back) && CanReach(w, back) && UseAll(CloseBegin(At(w, w.activity.id)), user).self == w.activity.id
    ensures back == Became(w, UseAll(CloseBegin(At(w, w.activity.id)), user),
                           w.activity.(stage := stage, spot := AtCloseCallback), w.connections)
  {
    var id := w.activity.id;
    var begun := CloseStep(w, stage);
    CloseStepInv(w, stage);
    assert At(begun, id) == CloseBegin(At(w, id));
    var told := UserRun(begun, id, user);
    Onward(w, begun, told);
    back := Step(told, Return);
    Onward(w, told, back);
    BecameTwice(w, At(begun, id), At(told, id), begun.activity, back.activity, w.connections, w.connections);
  }

  lemma ForgetRun(w: World) returns (done: World)
    requires Inv(w) && w.activity.Handling? && w.activity.spot == AtCloseCallback
    ensures Inv(done) && CanReach(w, done) && CloseEnd(At(w, w.activity.id)).self == w.activity.id
    ensures done == Became(w, CloseEnd(At(w, w.activity.id)), w.activity.(spot := Here),
                           w.connections - {NameOf(w, w.activity.id)})
  {
    done := Step(w, Go(Fails, Takes(0)));
  }

  /** What the map is left with after a branch that may have closed the connection. */
  function MapAfter(w: World, id: Id, closed: bool): map<string, Id> {
    if closed then w.connections - {NameOf(w, id)} else w.connections
  }

  predicate HangsUp(revents: Mask) {
    Hup in revents && In !in revents
  }

  predicate EndsStream(revents: Mask, read: ReadAnswer) {
    (In in revents || Pri in revents) && read == Offers([])
  }

  lemma HangupRun(w: World, user: seq<UserOp>) returns (done: World)
    requires Branch(w, AtHangup) && Manageable(user)
    ensures Inv(done) && CanReach(w, done) && OnHangup(At(w, w.activity.id), w.activity.revents, user).self == w.activity.id
    ensures done == Became(w, OnHangup(At(w, w.activity.id), w.activity.revents, user),
                           w.activity.(stage := AtReadable),
                           MapAfter(w, w.activity.id, HangsUp(w.activity.revents)))
  {
    var next := Step(w, Go(Fails, Takes(0)));
    if HangsUp(w.activity.revents) {
      assert next == CloseStep(w, AtReadable);
      done := CloseRun(w, AtReadable, user);
    } else {
      done := next;
    }
  }

  lemma ReadableRun(w: World, read: ReadAnswer, user: seq<UserOp>) returns (done: World)
    requires Branch(w, AtReadable) && Manageable(user)
    ensures Inv(done) && CanReach(w, done)
    ensures OnReadable(At(w, w.activity.id), w.activity.revents, read, user).self == w.activity.id
    ensures done == Became(w, OnReadable(At(w, w.activity.id), w.activity.revents, read, user),
                           w.activity.(stage := AtWritable),
                           MapAfter(w, w.activity.id, EndsStream(w.activity.revents, read)))
  {
    var next := Step(w, Go(read, Takes(0)));
    if (In !in w.activity.revents && Pri !in w.activity.revents) || read.Fails? {
      done := next;
    } else if read.data == [] {
      assert next == CloseStep(w, AtWritable);
      done := CloseRun(w, AtWritable, user);
    } else {
      done := MessageRun(w, next, read, user);
    }
  }

  lemma MessageRun(w: World, fed: World, read: ReadAnswer, user: seq<UserOp>) returns (done: World)
    requires Branch(w, AtReadable) && Manageable(user) && read.Offers? && Inv(fed) && CanReach(w, fed)
    requires fed == Became(w, Receive(At(w, w.activity.id), read.data),
                           w.activity.(stage := AtWritable, spot := InMessage), w.connections)
    ensures Inv(done) && CanReach(w, done)
    ensures UseAll(Receive(At(w, w.activity.id), read.data), user).self == w.activity.id
    ensures done == Became(w, UseAll(Receive(At(w, w.activity.id), read.data), user),
                           w.activity.(stage := AtWritable), w.connections)
  {
    var id := w.activity.id;
    assert At(fed, id) == Receive(At(w, id), read.data);
    var told := UserRun(fed, id, user);
    Onward(w, fed, told);
    done := Step(told, Return);
    Onward(w, told, done);
    BecameTwice(w, At(fed, id), At(told, id), fed.activity, w.activity.(stage := AtWritable), w.connections, w.connections);
  }

  lemma WritableRun(w: World, write: WriteAnswer) returns (done: World)
    requires Branch(w, AtWritable)
    ensures Inv(done) && CanReach(w, done) && OnWritable(At(w, w.activity.id), w.activity.revents, write).self == w.activity.id
    ensures done == Became(w, OnWritable(At(w, w.activity.id), w.activity.revents, write), Idle, w.connections)
  {
    done := Step(w, Go(Fails, write));
  }

  /** The events epoll_wait reported are dispatched one by one from the first, and each dispatch can
      run to its end; then the connection is as its dispatch as a whole leaves it, whatever the mask,
      the kernel's answers and what the callbacks do to it. */
  lemma DispatchRun(w: World, env: Env) returns (done: World)
    requires Inv(w) && w.phase == Events && w.activity == Idle && w.active != []
    requires Manageable(env.closing) && Manageable(env.reading)
    ensures Inv(done) && CanReach(w, done) && done.phase == Events && done.activity == Idle
    ensures w.active[0].id < |w.conns| && w.active[0].id < |done.conns|
    ensures var r := w.active[0]; At(done, r.id) == HandleEvent(At(w, r.id), r.revents, env)
    ensures done.active == w.active[1..] && done.ran == w.ran && done.batch == w.batch
  {
    var r := w.active[0];
    var begun := Step(w, Dispatch);
    var hung := HangupRun(begun, env.closing);
    Onward(w, begun, hung);
    var fed := ReadableRun(hung, env.read, env.reading);
    Onward(w, hung, fed);
    done := WritableRun(fed, env.write);
    Onward(w, fed, done);
    assert At(begun, r.id) == At(w, r.id);
  }

  // ---- Tasks and new connections ----

  /** A notification or a task of the user's is begun in its turn and is the user's to run; the end of
      a connection, from its first step to its last, is connectDestroyed of that connection. */
  lemma TaskBegins(w: World) returns (next: World)
    requires Inv(w) && w.phase == Functors && w.activity == Idle && w.batch != []
    ensures Inv(next) && CanReach(w, next) && next.ran == w.ran + [w.batch[0]] && next.batch == w.batch[1..]
    ensures next.phase == Functors
    ensures !w.batch[0].ConnectDestroyed? ==>
              UserRuns(next) && next.activity == InTask && next.conns == w.conns && next.loop == w.loop
  {
    next := Step(w, RunFunctor);
  }

  lemma EndRun(w: World, user: seq<UserOp>) returns (done: World)
    requires Inv(w) && w.phase == Functors && w.activity == Idle && w.batch != [] && w.batch[0].ConnectDestroyed?
    requires Manageable(user)
    ensures Inv(done) && CanReach(w, done) && done.phase == Functors && done.activity == Idle
    ensures w.batch[0].conn < |w.conns| && w.batch[0].conn < |done.conns|
    ensures At(done, w.batch[0].conn) == ConnectDestroy(At(w, w.batch[0].conn), user)
    ensures done.ran == w.ran + [w.batch[0]] && done.batch == w.batch[1..]
  {
    var id := w.batch[0].conn;
    assert FunctorFits(w, w.batch[0]);
    var begun := Step(w, RunFunctor);
    assert At(begun, id) == At(w, id);
    done := Step(begun, Go(Fails, Takes(0)));
    Onward(w, begun, done);
  }

  /** A new connection is up, in the map under its own name and read by the kernel's set before its
      user hears of it, and comes out as connectEstablished leaves it. */
  lemma AcceptRun(w: World, fd: int, user: seq<UserOp>) returns (done: World)
    requires CanAccept(w, fd) && Manageable(user)
    ensures Inv(done) && CanReach(w, done) && done.activity == Idle && |done.conns| == |w.conns| + 1
    ensures var id := |w.conns|;
            && At(done, id) == Establish(Newcomer(w, fd), user)
            && done.connections == w.connections[NameOf(w, id) := id]
            && done.openFds == w.openFds + {fd} && done.conns[..id] == w.conns
  {
    var id := |w.conns|;
    EnterIs(w, fd);
    var entered := Step(w, Accept(fd));
    NewcomerUp(w, fd);
    assert id !in w.freed;
    assert At(entered, id) == ConnectEstablished(Newcomer(w, fd));
    var told := UserRun(entered, id, user);
    Onward(w, entered, told);
    done := Step(told, Return);
    Onward(w, told, done);
  }

  /** The destructor takes a connection out of the map and ends it. */
  lemma TeardownRun(w: World, id: Id, user: seq<UserOp>) returns (done: World)
    requires Inv(w) && w.phase == Stopped && w.activity == Idle && id < |w.conns| && InMap(w, id) && Manageable(user)
    ensures Inv(done) && CanReach(w, done) && done.activity == Idle && id < |done.conns|
    ensures At(done, id) == ConnectDestroy(At(w, id), user)
    ensures done.phase == Stopped && done.connections == w.connections - {NameOf(w, id)}
  {
    var begun := Step(w, Teardown(id));
    assert ConnInv(w, id);
    var told := begun;
    if w.conns[id].state == Connected {
      told := LastWords(begun, user);
      Onward(w, begun, told);
    }
    assert At(begun, id) == DestroyBegin(At(w, id));
    done := LastStep(told);
    Onward(w, told, done);
  }

  lemma LastWords(w: World, user: seq<UserOp>) returns (told: World)
    requires Inv(w) && w.activity.Ending? && w.activity.inUser && Manageable(user)
    ensures Inv(told) && CanReach(w, told) && told.activity == Ending(w.activity.id, false)
    ensures |told.conns| == |w.conns| && At(told, w.activity.id) == UseAll(At(w, w.activity.id), user)
    ensures told.connections == w.connections && told.phase == w.phase
  {
    var used := UserRun(w, w.activity.id, user);
    told := Step(used, Return);
    Onward(w, used, told);
  }

  lemma LastStep(w: World) returns (done: World)
    requires Inv(w) && w.activity.Ending? && !w.activity.inUser
    ensures Inv(done) && CanReach(w, done) && done.activity == Idle && done.connections == w.connections
    ensures done.phase == w.phase
    ensures |done.conns| == |w.conns| && At(done, w.activity.id) == DestroyEnd(At(w, w.activity.id))
  {
    done := Step(w, Go(Fails, Takes(0)));
  }

  // ---- One turn of the loop ----

  const SILENT: Env := Env([], Fails, [], Refuses(WouldBlock))

  /** Whatever is reported can be dispatched to the last event; what was queued stays queued. */
  lemma {:induction false} EventsRun(w: World) returns (done: World)
    requires Inv(w) && w.phase == Events && w.activity == Idle
    ensures Inv(done) && CanReach(w, done)
    ensures done.phase == Events && done.activity == Idle && done.active == []
    ensures w.loop.pending <= done.loop.pending && done.ran == w.ran && done.batch == w.batch
    decreases |w.active|
  {
    if w.active == [] {
      Stay(w);
      done := w;
    } else {
      var id := w.active[0].id;
      var next := DispatchRun(w, SILENT);
      HandleEventTells(At(w, id), w.active[0].revents, SILENT);
      done := EventsRun(next);
      Onward(w, next, done);
    }
  }

  /** A batch can be run to its last functor, each begun in its turn. */
  lemma {:induction false} BatchRun(w: World) returns (done: World)
    requires Inv(w) && w.phase == Functors && w.activity == Idle
    ensures Inv(done) && CanReach(w, done)
    ensures done.phase == Functors && done.activity == Idle && done.batch == [] && done.ran == w.ran + w.batch
    decreases |w.batch|
  {
    if w.batch == [] {
      Stay(w);
      done := w;
    } else {
      var next := TaskRun(w);
      done := BatchRun(next);
      Onward(w, next, done);
      assert [w.batch[0]] + w.batch[1..] == w.batch;
      assert w.ran + [w.batch[0]] + w.batch[1..] == w.ran + w.batch;
    }
  }

  lemma TaskRun(w: World) returns (done: World)
    requires Inv(w) && w.phase == Functors && w.activity == Idle && w.batch != []
    ensures Inv(done) && CanReach(w, done) && done.phase == Functors && done.activity == Idle
    ensures done.ran == w.ran + [w.batch[0]] && done.batch == w.batch[1..]
  {
    if w.batch[0].ConnectDestroyed? {
      done := EndRun(w, []);
    } else {
      var begun := TaskBegins(w);
      done := Step(begun, Return);
      Onward(w, begun, done);
    }
  }

  /** Whatever epoll_wait reports, the turn it begins can be completed: the events are dispatched, all
      that is queued by then is run, and the loop polls again. */
  lemma TurnRun(w: World, ready: seq<Ready>) returns (done: World)
    requires Inv(w) && w.phase == Polling && w.activity == Idle && Reported(w, ready)
    ensures Inv(done) && CanReach(w, done)
    ensures done.phase == Polling && done.activity == Idle && done.active == [] && done.batch == []
    ensures w.ran + w.loop.pending <= done.ran
  {
    var polled := Step(w, PollReturns(ready));
    assert polled.active == ready;
    var handled := EventsRun(polled);
    Onward(w, polled, handled);
    var swapped := Step(handled, EventsDone);
    Onward(w, handled, swapped);
    assert swapped.batch == handled.loop.pending;
    var ran := BatchRun(swapped);
    Onward(w, swapped, ran);
    done := Step(ran, FunctorsDone);
    Onward(w, ran, done);
  }

  // ---- Single steps ----

  /** The read branch of a dispatch hands the bytes on offer over to the message callback. */
  lemma ReadStepEffect(w: World, data: seq<Byte>, write: WriteAnswer)
    requires Branch(w, AtReadable) && (In in w.activity.revents || Pri in w.activity.revents) && data != []
    ensures var id := w.activity.id; var w' := Advance(w, Offers(data), write);
            && UserRuns(w') && w'.activity == w.activity.(stage := AtWritable, spot := InMessage)
            && |w'.conns| == |w.conns| && At(w', id) == Fed(At(w, id), data)
            && Received(w'.conns[id].trace) == Received(w.conns[id].trace) + data
  {
  }

  /** The write branch moves as many waiting bytes as fit to the kernel, and ends the dispatch. */
  lemma WriteStepEffect(w: World, read: ReadAnswer, write: WriteAnswer)
    requires Branch(w, AtWritable) && Out in w.activity.revents && IsOpen(w.conns[w.activity.id])
    ensures var id := w.activity.id; var c := w.conns[id]; var w' := Advance(w, read, write);
            var n := if write.Takes? then Min(write.room, |c.output|) else 0;
            && w'.activity == Idle && |w'.conns| == |w.conns|
            && Written(w'.conns[id].trace) == Written(c.trace) + c.output[..n]
            && w'.conns[id].output == c.output[n..]
  {
    GoodAt(w, w.activity.id);
    WriteEffect(At(w, w.activity.id), write, Chans(w.conns));
  }

  /** A task pushed by another thread is its queueInLoop, in the two steps that it is. */
  lemma ForeignQueueIsPushThenWake(w: World, task: nat)
    requires WellFormed(w)
    ensures var pushed := Next(w, ForeignPush(task));
            && WellFormed(pushed) && Enabled(pushed, ForeignWake)
            && Next(pushed, ForeignWake) == w.(loop := Queue(w.loop, UserTask(task), false))
  {
  }

  /** Reading the wake-up descriptor takes the whole counter. */
  lemma ReadWakeupEffect(w: World)
    requires WellFormed(w) && w.phase == Events && w.activity == Idle
    ensures Enabled(w, ReadWakeup) && Next(w, ReadWakeup) == w.(loop := LoopState(w.loop.pending, w.loop.calling, 0))
  {
  }

  /** User code may queue a task of its own whenever it runs. */
  lemma UserQueueEffect(w: World, task: nat)
    requires WellFormed(w) && UserRuns(w)
    ensures Enabled(w, UserQueue(task)) && Next(w, UserQueue(task)) == w.(loop := Queue(w.loop, UserTask(task), true))
  {
  }

  /** Once a destroyed connection is named by no task and handled by nobody, nothing of the reactor's
      keeps it, and with the user's last reference it is freed and its descriptor closed. */
  lemma FreeRun(w: World, id: Id) returns (done: World)
    requires Inv(w) && w.activity == Idle && id < |w.conns| && id !in w.freed && IsDestroyed(w.conns[id])
    requires Of(w.batch, id) == [] && Of(w.loop.pending, id) == []
    ensures Inv(done) && CanReach(w, done)
    ensures id in done.freed && w.conns[id].chan.fd in w.openFds && done.openFds == w.openFds - {w.conns[id].chan.fd}
  {
    assert ConnInv(w, id);
    NoneNames(w.batch, id);
    NoneNames(w.loop.pending, id);
    forall n | n in w.connections ensures w.connections[n] != id {
      assert n == NameOf(w, w.connections[n]);
    }
    done := Step(w, Free(id));
  }

  lemma {:induction false} NoneNames(fs: seq<Functor<Id>>, id: Id)
    requires Of(fs, id) == []
    ensures forall f <- fs :: !Names(f, id)
  {
    if fs != [] {
      NoneNames(fs[..|fs| - 1], id);
      assert fs == fs[..|fs| - 1] + [fs[|fs| - 1]];
    }
  }

  // ---- From poll to the peer, and to the end ----

  /** Of an open connection epoll_wait may report whatever the connection asked for, and errors and
      hang-ups unasked; and it asks for room exactly while bytes wait. */
  lemma OpenIsReported(w: World, id: Id, revents: Mask)
    requires Inv(w) && w.phase == Polling && w.activity == Idle
    requires id < |w.conns| && IsOpen(w.conns[id]) && !IsDestroyed(w.conns[id])
    ensures revents <= (if w.conns[id].output == [] then {In, Pri, Err, Hup} else {In, Pri, Out, Err, Hup}) ==>
              Enabled(w, PollReturns([Ready(id, revents)]))
  {
    GoodAt(w, id);
    var fd := w.conns[id].chan.fd;
    assert ChannelAgrees(w.poll, Chans(w.conns)[id], id);
    assert fd in w.poll.epoll && w.poll.epoll[fd].ptr == id;
    assert READ_EVENT + {Err, Hup} == {In, Pri, Err, Hup};
    assert READ_EVENT + WRITE_EVENT + {Err, Hup} == {In, Pri, Out, Err, Hup};
  }

  /** So bytes that wait reach the peer: one turn of the loop writes as many as there is room for. */
  lemma WaitingBytesAreWritten(w: World, id: Id, room: nat) returns (done: World)
    requires Inv(w) && w.phase == Polling && w.activity == Idle
    requires id < |w.conns| && IsOpen(w.conns[id]) && !IsDestroyed(w.conns[id]) && w.conns[id].output != []
    ensures Inv(done) && CanReach(w, done) && id < |done.conns|
    ensures var n := Min(room, |w.conns[id].output|);
            && Written(done.conns[id].trace) == Written(w.conns[id].trace) + w.conns[id].output[..n]
            && done.conns[id].output == w.conns[id].output[n..]
  {
    var env := Env([], Fails, [], Takes(room));
    OpenIsReported(w, id, {Out});
    var polled := Step(w, PollReturns([Ready(id, {Out})]));
    done := DispatchRun(polled, env);
    Onward(w, polled, done);
    GoodAt(w, id);
    DispatchWrites(At(w, id), env, Chans(w.conns));
    assert At(polled, id) == At(w, id);
  }

  /** Once loop() has returned the destructor empties the map, whatever it held. */
  lemma {:induction false} DestructorRun(w: World) returns (done: World)
    requires Inv(w) && w.phase == Stopped && w.activity == Idle
    ensures Inv(done) && CanReach(w, done) && done.phase == Stopped && done.activity == Idle && done.connections == map[]
    decreases |w.connections.Keys|
  {
    if w.connections == map[] {
      Stay(w);
      done := w;
    } else {
      var n :| n in w.connections;
      var id := w.connections[n];
      assert n == NameOf(w, id);
      var next := TeardownRun(w, id, []);
      assert next.connections.Keys < w.connections.Keys;
      SmallerKeys(next.connections.Keys, w.connections.Keys);
      done := DestructorRun(next);
      Onward(w, next, done);
    }
  }

  lemma SmallerKeys(a: set<string>, b: set<string>)
    requires a < b
    ensures |a| < |b|
  {
    var x :| x in b && x !in a;
    assert |b - a| + |a| == |b| by {
      assert (b - a) + a == b;
    }
    assert x in b - a;
  }

  /** loop() may return whenever the loop would poll again. */
  lemma StopRun(w: World) returns (done: World)
    requires Inv(w) && w.phase == Polling && w.activity == Idle
    ensures Inv(done) && CanReach(w, done) && done == w.(phase := Stopped)
  {
    done := Step(w, Stop);
  }

  /** Any server whose printed address fits can start, with any descriptors open. */
  lemma AnyServerStarts(name: string, ipPort: string, completes: bool, openFds: set<int>)
    requires |ipPort| <= LONGEST_IP_PORT
    ensures exists w :: Init(w) && w.name == name && w.ipPort == ipPort && w.completes == completes && w.openFds == openFds
  {
    var w := World(name, ipPort, completes, [], {}, openFds, map[], Poll(map[], map[], false, false),
                   LoopState([], false, 0), 0, [], [], Polling, [], Idle, false);
    assert Init(w);
  }
}
