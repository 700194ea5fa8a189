/** The life of a connection over whole runs of the server: the state never goes back; and while
    the kernel never hangs up and raises PRI without IN in one report, a connection goes down
    once, is forgotten once and destroyed once. */
module Lifecycle {
  import opened Kernel
  import opened LoopSpec
  import opened ConnSpec
  import opened TraceSpec
  import opened ConnProofs
  import opened Naming
  import opened Server
  import opened ServerProofs
  import opened ServerTheorems
  import opened ConnTheorems

  // ---- The state moves forward ----

  /** User code can only move a connection from connected to disconnecting. */
  lemma UseStates<C>(x: Ctx<C>, op: UserOp)
    ensures var y := Use(x, op).conn.state;
            y == x.conn.state || (x.conn.state == Connected && y == Disconnecting)
  {
  }

  lemma DrainStates<C>(x: Ctx<C>, write: WriteAnswer)
    ensures HandleWrite(x, write).conn.state == x.conn.state
  {
  }

  lemma CloseStates<C>(x: Ctx<C>)
    ensures CloseBegin(x).conn.state == Disconnected && CloseBegin(x).self == x.self
    ensures DestroyEnd(x).conn.state == x.conn.state && CloseEnd(x).conn.state == x.conn.state
  {
  }

  /** No connection is lost and none goes back to an earlier state. */
  predicate Forward(w: World, w': World) {
    |w.conns| <= |w'.conns| && forall id: nat :: id < |w.conns| ==> Rank(w.conns[id].state) <= Rank(w'.conns[id].state)
  }

  lemma PutMovesForward(w: World, x: Ctx<Id>)
    requires x.self < |w.conns| && Rank(w.conns[x.self].state) <= Rank(x.conn.state)
    ensures Forward(w, Put(w, x)) && |Put(w, x).conns| == |w.conns|
  {
  }

  lemma AdvanceMovesForward(w: World, read: ReadAnswer, write: WriteAnswer)
    requires w.activity.Handling? && w.activity.spot == Here && w.activity.id < |w.conns|
    ensures Forward(w, Advance(w, read, write)) && |Advance(w, read, write).conns| == |w.conns|
  {
    if w.activity.stage == AtWritable {
      WritableMovesForward(w, read, write);
    } else {
      var x := At(w, w.activity.id);
      CloseStates(x);
      PutMovesForward(w, CloseBegin(x));
    }
  }

  lemma WritableMovesForward(w: World, read: ReadAnswer, write: WriteAnswer)
    requires w.activity.Handling? && w.activity.spot == Here && w.activity.id < |w.conns|
    requires w.activity.stage == AtWritable
    ensures Forward(w, Advance(w, read, write)) && |Advance(w, read, write).conns| == |w.conns|
  {
    var x := At(w, w.activity.id);
    DrainStates(x, write);
    PutMovesForward(w, HandleWrite(x, write));
  }

  lemma BeginMovesForward(w: World, id: Id)
    requires id < |w.conns|
    ensures Forward(w, BeginEnding(w, id)) && |BeginEnding(w, id).conns| == |w.conns|
  {
  }

  lemma EnterMovesForward(w: World, fd: int)
    ensures Forward(w, Enter(w, fd)) && |Enter(w, fd).conns| == |w.conns| + 1
  {
  }

  /** Whatever the step, no connection goes back to an earlier state. */
  lemma StepMovesForward(w: World, l: Label)
    requires Enabled(w, l) && WellFormed(w)
    ensures Forward(w, Next(w, l))
    ensures |Next(w, l).conns| == |w.conns| + if l.Accept? then 1 else 0
  {
    match l
    case User(user, op) => UseStates(At(w, user), op);
    case Go(read, write) => GoMovesForward(w, read, write);
    case RunFunctor =>
      if w.batch[0].ConnectDestroyed? {
        BeginMovesForward(w.(batch := w.batch[1..]), w.batch[0].conn);
      }
    case Teardown(id) => BeginMovesForward(w.(connections := w.connections - {NameOf(w, id)}), id);
    case Accept(fd) => EnterMovesForward(w, fd);
    case _ =>
  }

  lemma GoMovesForward(w: World, read: ReadAnswer, write: WriteAnswer)
    requires Enabled(w, Go(read, write)) && WellFormed(w)
    ensures Forward(w, Next(w, Go(read, write))) && |Next(w, Go(read, write)).conns| == |w.conns|
  {
    CloseStates(At(w, w.activity.id));
    if w.activity.Handling? && w.activity.spot == Here {
      AdvanceMovesForward(w, read, write);
    }
  }

  lemma {:induction false} StatesMoveForward(w: World, labels: seq<Label>, w': World)
    requires Leads(w, labels, w')
    ensures Forward(w, w')
    decreases |labels|
  {
    if labels != [] {
      StepMovesForward(w, labels[0]);
      StatesMoveForward(Next(w, labels[0]), labels[1..], w');
    }
  }

  // ---- Once ----

  /** No report of epoll_wait has a mask that can close a connection twice. */
  predicate Calm(l: Label) {
    l.PollReturns? ==> forall i :: 0 <= i < |l.ready| ==> !TwiceMask(l.ready[i].revents)
  }

  /** How often connectDestroyed has run, is running, is queued, or is about to be. */
  function Ends(w: World, id: Id): nat
    requires id < |w.conns|
  {
    TallyOf(w.conns[id].trace).destroys
    + multiset(w.loop.pending)[ConnectDestroyed(id)] + multiset(w.batch)[ConnectDestroyed(id)]
    + if ClosingNow(w, id) || EndingNow(w, id) then 1 else 0
  }

  ghost predicate OnceInv(w: World, id: Id)
    requires id < |w.conns|
  {
    var c := w.conns[id];
    && TallyOf(c.trace).downs == (if c.state == Disconnected then 1 else 0)
    && TallyOf(c.trace).closes <= 1 && (ClosingNow(w, id) ==> TallyOf(c.trace).closes == 0)
    && Ends(w, id) <= 1
    && (InMap(w, id) && IsOpen(c) ==> Ends(w, id) == 0)
  }

  /** A dispatch under way can still close its connection only if it has not done so. */
  ghost predicate CalmActivity(w: World) {
    && (forall i :: 0 <= i < |w.active| ==> !TwiceMask(w.active[i].revents))
    && match w.activity
       case Handling(id, m, stage, spot) =>
         && !TwiceMask(m) && id < |w.conns|
         && (stage == AtHangup ==> spot == Here && IsOpen(w.conns[id]))
         && (stage == AtReadable ==> spot != InMessage && (w.conns[id].state == Disconnected ==> Hup in m && In !in m))
       case _ => true
  }

  ghost predicate CalmInv(w: World) {
    && Inv(w) && CalmActivity(w)
    && (forall id: nat :: id < |w.conns| ==> OnceInv(w, id))
  }

  lemma CalmActivityStep(w: World, l: Label)
    requires CalmActivity(w) && ActiveInv(w) && Enabled(w, l) && WellFormed(w) && Calm(l)
    ensures CalmActivity(Next(w, l))
  {
    if l.User? {
      UseStates(At(w, l.id), l.op);
    } else if l.Go? {
      CalmGo(w, l.read, l.write);
    }
  }

  lemma CalmGo(w: World, read: ReadAnswer, write: WriteAnswer)
    requires CalmActivity(w) && Enabled(w, Go(read, write)) && WellFormed(w)
    ensures CalmActivity(Next(w, Go(read, write)))
  {
    if w.activity.Handling? && w.activity.spot == Here {
      CalmAdvance(w, read, write);
    } else {
      CloseStates(At(w, w.activity.id));
    }
  }

  lemma CalmAdvance(w: World, read: ReadAnswer, write: WriteAnswer)
    requires CalmActivity(w) && w.activity.Handling? && w.activity.spot == Here
    ensures CalmActivity(Advance(w, read, write))
  {
    match w.activity.stage
    case AtHangup => CalmHangup(w, read, write);
    case AtReadable => CalmReadable(w, read, write);
    case AtWritable => assert Advance(w, read, write).activity == Idle;
  }

  lemma CalmHangup(w: World, read: ReadAnswer, write: WriteAnswer)
    requires CalmActivity(w) && w.activity.Handling? && w.activity.spot == Here && w.activity.stage == AtHangup
    ensures CalmActivity(Advance(w, read, write))
  {
    CloseStates(At(w, w.activity.id));
  }

  lemma CalmReadable(w: World, read: ReadAnswer, write: WriteAnswer)
    requires CalmActivity(w) && w.activity.Handling? && w.activity.spot == Here && w.activity.stage == AtReadable
    ensures CalmActivity(Advance(w, read, write))
  {
    CloseStates(At(w, w.activity.id));
  }

  lemma CountNotices(self: Id, before: LoopState<Functor<Id>>, after: LoopState<Functor<Id>>, id: Id)
    requires OnlyNotices(self, before, after)
    ensures multiset(after.pending)[ConnectDestroyed(id)] == multiset(before.pending)[ConnectDestroyed(id)]
  {
    var more := after.pending[|before.pending|..];
    assert after.pending == before.pending + more;
    assert ConnectDestroyed(id) !in more;
  }

  lemma OnceQuiet(w: World, y: Ctx<Id>, id: Id)
    requires CalmInv(w) && y.self < |w.conns| && Quiet(At(w, y.self), y) && id < |w.conns|
    ensures OnceInv(Put(w, y), id)
  {
    assert OnceInv(w, id);
    CountNotices(y.self, w.loop, y.loop, id);
    assert InMap(Put(w, y), id) <==> InMap(w, id);
    assert TallyOf(y.conn.trace).(fins := 0) == TallyOf(w.conns[y.self].trace).(fins := 0);
  }

  /** Only what the loop thread is doing has changed, and not whether it closes or ends this one. */
  lemma OnceSwitch(w: World, w': World, id: Id)
    requires id < |w.conns| && OnceInv(w, id)
    requires w'.conns == w.conns && w'.name == w.name && w'.ipPort == w.ipPort && w'.connections == w.connections
    requires multiset(w'.loop.pending)[ConnectDestroyed(id)] + multiset(w'.batch)[ConnectDestroyed(id)]
             == multiset(w.loop.pending)[ConnectDestroyed(id)] + multiset(w.batch)[ConnectDestroyed(id)]
    requires (ClosingNow(w', id) <==> ClosingNow(w, id)) && (EndingNow(w', id) <==> EndingNow(w, id))
    ensures OnceInv(w', id)
  {
  }

  lemma OnceClose(w: World, stage: Stage, id: Id)
    requires CalmInv(w) && w.activity.Handling? && w.activity.spot == Here && IsOpen(w.conns[w.activity.id])
    requires id < |w.conns|
    ensures OnceInv(CloseStep(w, stage), id)
  {
    var at := w.activity.id;
    assert OnceInv(w, id) && ConnInv(w, id) && ConnInv(w, at);
    ClosesWhileOpen(w.conns[at].trace);
    CloseTally(At(w, at));
    OnceClosed(w, CloseStep(w, stage), CloseBegin(At(w, at)).conn, id);
  }

  lemma CloseTally<C>(x: Ctx<C>)
    ensures var c := CloseBegin(x).conn;
            && c.state == Disconnected && c.chan.fd == x.conn.chan.fd
            && TallyOf(c.trace) == TallyOf(x.conn.trace).(downs := TallyOf(x.conn.trace).downs + 1)
  {
  }

  lemma OnceClosed(w: World, w': World, c: Conn, id: Id)
    requires w.activity.Handling? && w.activity.spot == Here && w.activity.id < |w.conns| && id < |w.conns|
    requires OnceInv(w, id) && (id == w.activity.id ==> IsOpen(w.conns[id]) && InMap(w, id))
    requires w'.conns == w.conns[w.activity.id := c] && c.state == Disconnected
    requires TallyOf(c.trace) == TallyOf(w.conns[w.activity.id].trace).(downs := TallyOf(w.conns[w.activity.id].trace).downs + 1)
    requires TallyOf(w.conns[w.activity.id].trace).closes == 0
    requires w'.name == w.name && w'.ipPort == w.ipPort && w'.connections == w.connections
    requires w'.loop == w.loop && w'.batch == w.batch
    requires w'.activity.Handling? && w'.activity.id == w.activity.id && w'.activity.spot == InDown
    ensures OnceInv(w', id)
  {
  }

  lemma OnceForget(w: World, id: Id)
    requires CalmInv(w) && w.activity.Handling? && w.activity.spot == AtCloseCallback && id < |w.conns|
    ensures OnceInv(Forget(w, w.activity.id).(activity := w.activity.(spot := Here)), id)
  {
    var at := w.activity.id;
    assert OnceInv(w, id) && OnceInv(w, at);
    if id != at {
      NamesApart(w, id, at);
    }
    ForgetTally(At(w, at));
    OnceForgotten(w, Forget(w, at).(activity := w.activity.(spot := Here)), CloseEnd(At(w, at)).conn, id);
  }

  lemma ForgetTally(x: Ctx<Id>)
    ensures var y := CloseEnd(x);
            && y.conn.state == x.conn.state && y.loop.pending == x.loop.pending + [ConnectDestroyed(x.self)]
            && TallyOf(y.conn.trace) == TallyOf(x.conn.trace).(closes := TallyOf(x.conn.trace).closes + 1)
  {
  }

  lemma OnceForgotten(w: World, w': World, c: Conn, id: Id)
    requires w.activity.Handling? && w.activity.spot == AtCloseCallback && w.activity.id < |w.conns| && id < |w.conns|
    requires OnceInv(w, id) && (id != w.activity.id ==> NameOf(w, id) != NameOf(w, w.activity.id))
    requires w'.conns == w.conns[w.activity.id := c] && c.state == w.conns[w.activity.id].state
    requires TallyOf(c.trace) == TallyOf(w.conns[w.activity.id].trace).(closes := TallyOf(w.conns[w.activity.id].trace).closes + 1)
    requires w'.name == w.name && w'.ipPort == w.ipPort && w'.batch == w.batch
    requires w'.connections == w.connections - {NameOf(w, w.activity.id)}
    requires w'.loop.pending == w.loop.pending + [ConnectDestroyed(w.activity.id)]
    requires w'.activity.Handling? && w'.activity.spot == Here
    ensures OnceInv(w', id)
  {
  }

  /** The destructor reaches an open connection. */
  lemma OnceTeardown(w: World, ending: Id, id: Id)
    requires CalmInv(w) && CanEnd(w, ending) && IsOpen(w.conns[ending]) && id < |w.conns|
    ensures OnceInv(BeginEnding(w.(connections := w.connections - {NameOf(w, ending)}), ending), id)
  {
    var w' := BeginEnding(w.(connections := w.connections - {NameOf(w, ending)}), ending);
    BeginEndingAgrees(w, ending);
    EndedOnce(w, w', ending, w'.conns[ending], id);
  }

  lemma EndedOnce(w: World, w': World, ending: Id, c: Conn, id: Id)
    requires CalmInv(w) && CanEnd(w, ending) && IsOpen(w.conns[ending]) && id < |w.conns|
    requires Ended(w, w', ending, c) && EndingNow(w', ending)
    requires TallyOf(c.trace).destroys == TallyOf(w.conns[ending].trace).destroys
    requires TallyOf(c.trace).downs == TallyOf(w.conns[ending].trace).downs + if c.state == Disconnected then 1 else 0
    ensures OnceInv(w', id)
  {
    assert OnceInv(w, id) && ConnInv(w, ending);
    if id != ending {
      NamesApart(w, id, ending);
      assert InMap(w', id) <==> InMap(w, id);
    }
  }

  /** A queued end begins. */
  lemma OnceRunEnd(w: World, id: Id)
    requires CalmInv(w) && Enabled(w, RunFunctor) && w.batch[0].ConnectDestroyed? && WellFormed(w) && id < |w.conns|
    ensures OnceInv(Next(w, RunFunctor), id)
  {
    assert FunctorFits(w, w.batch[0]);
    assert OnceInv(w, id);
    OnceBegun(w, Next(w, RunFunctor), id);
  }

  lemma OnceBegun(w: World, w': World, id: Id)
    requires id < |w.conns| && OnceInv(w, id) && w.activity == Idle
    requires w'.conns == w.conns && w'.name == w.name && w'.ipPort == w.ipPort && w'.connections == w.connections
    requires w.batch != [] && w.batch[0].ConnectDestroyed? && w'.batch == w.batch[1..]
    requires w'.loop.pending == w.loop.pending && w'.activity.Ending? && w'.activity.id == w.batch[0].conn
    ensures OnceInv(w', id)
  {
    assert w.batch == [w.batch[0]] + w'.batch;
    assert InMap(w', id) <==> InMap(w, id);
  }

  lemma OnceDestroy(w: World, id: Id)
    requires CalmInv(w) && w.activity.Ending? && id < |w.conns|
    ensures OnceInv(Put(w, DestroyEnd(At(w, w.activity.id))).(activity := Idle), id)
  {
    var at := w.activity.id;
    assert OnceInv(w, id);
    DestroyTally(At(w, at));
    OnceDestroyed(w, Put(w, DestroyEnd(At(w, at))).(activity := Idle), DestroyEnd(At(w, at)).conn, id);
  }

  lemma DestroyTally<C>(x: Ctx<C>)
    ensures var y := DestroyEnd(x);
            && y.self == x.self && y.loop == x.loop && y.conn.state == x.conn.state
            && TallyOf(y.conn.trace) == TallyOf(x.conn.trace).(destroys := TallyOf(x.conn.trace).destroys + 1)
  {
  }

  lemma OnceDestroyed(w: World, w': World, c: Conn, id: Id)
    requires w.activity.Ending? && w.activity.id < |w.conns| && id < |w.conns| && OnceInv(w, id)
    requires w'.conns == w.conns[w.activity.id := c] && c.state == w.conns[w.activity.id].state
    requires TallyOf(c.trace) == TallyOf(w.conns[w.activity.id].trace).(destroys := TallyOf(w.conns[w.activity.id].trace).destroys + 1)
    requires w'.name == w.name && w'.ipPort == w.ipPort && w'.connections == w.connections
    requires w'.loop == w.loop && w'.batch == w.batch && w'.activity == Idle
    ensures OnceInv(w', id)
  {
    assert InMap(w', id) <==> InMap(w, id);
  }

  lemma OnceEntered(w: World, w': World, fd: int, c: Conn, id: Id)
    requires CalmInv(w) && CanAccept(w, fd) && Entered(w, w', fd, c) && id <= |w.conns|
    ensures OnceInv(w', id)
  {
    if id < |w.conns| {
      assert OnceInv(w, id);
      OnceBeside(w, w', fd, c, id);
    } else {
      assert ConnectDestroyed(id) !in w.loop.pending && ConnectDestroyed(id) !in w.batch;
    }
  }

  lemma OnceBeside(w: World, w': World, fd: int, c: Conn, id: Id)
    requires |w.ipPort| <= LONGEST_IP_PORT && |w.conns| + 2 <= INT_MAX && w.activity == Idle
    requires Entered(w, w', fd, c) && id < |w.conns| && OnceInv(w, id)
    ensures OnceInv(w', id)
  {
    NamesDiffer(w.name, w.ipPort, id + 1, |w.conns| + 1);
    assert InMap(w', id) <==> InMap(w, id);
  }

  lemma OnceGo(w: World, read: ReadAnswer, write: WriteAnswer, id: Id)
    requires CalmInv(w) && Enabled(w, Go(read, write)) && WellFormed(w) && id < |w.conns|
    ensures OnceInv(Next(w, Go(read, write)), id)
  {
    var a := w.activity;
    if a.Ending? {
      OnceDestroy(w, id);
    } else if a.spot == AtCloseCallback {
      OnceForget(w, id);
    } else if a.stage == AtHangup {
      OnceHangup(w, id);
    } else if a.stage == AtReadable {
      OnceReadable(w, read, id);
    } else {
      OnceWritable(w, write, id);
    }
  }

  lemma OnceHangup(w: World, id: Id)
    requires CalmInv(w) && w.activity.Handling? && w.activity.spot == Here && w.activity.stage == AtHangup
    requires id < |w.conns|
    ensures forall read, write :: OnceInv(Advance(w, read, write), id)
  {
    var a := w.activity;
    assert OnceInv(w, id);
    if Hup in a.revents && In !in a.revents {
      OnceClose(w, AtReadable, id);
    } else {
      OnceSwitch(w, w.(activity := a.(stage := AtReadable)), id);
    }
  }

  lemma OnceReadable(w: World, read: ReadAnswer, id: Id)
    requires CalmInv(w) && w.activity.Handling? && w.activity.spot == Here && w.activity.stage == AtReadable
    requires id < |w.conns|
    ensures forall write :: OnceInv(Advance(w, read, write), id)
  {
    var a := w.activity;
    assert OnceInv(w, id);
    if (In !in a.revents && Pri !in a.revents) || read.Fails? {
      OnceSwitch(w, w.(activity := a.(stage := AtWritable)), id);
    } else if read.data == [] {
      GoodAt(w, a.id);
      assert w.conns[a.id].state != Disconnected;
      OnceClose(w, AtWritable, id);
    } else {
      OnceArrival(w, read.data, id);
    }
  }

  lemma OnceArrival(w: World, data: seq<Byte>, id: Id)
    requires CalmInv(w) && w.activity.Handling? && w.activity.spot == Here && id < |w.conns|
    ensures OnceInv(Put(w, Receive(At(w, w.activity.id), data))
                      .(activity := w.activity.(stage := AtWritable, spot := InMessage)), id)
  {
    var fed := Receive(At(w, w.activity.id), data);
    GoodAt(w, w.activity.id);
    ReceiveGood(At(w, w.activity.id), data, Chans(w.conns));
    OnceQuiet(w, fed, id);
    OnceSwitch(Put(w, fed), Put(w, fed).(activity := w.activity.(stage := AtWritable, spot := InMessage)), id);
  }

  lemma OnceWritable(w: World, write: WriteAnswer, id: Id)
    requires CalmInv(w) && w.activity.Handling? && w.activity.spot == Here && w.activity.stage == AtWritable
    requires id < |w.conns|
    ensures forall read :: OnceInv(Advance(w, read, write), id)
  {
    assert OnceInv(w, id);
    if Out in w.activity.revents {
      OnceWritten(w, write, id);
    } else {
      OnceSwitch(w, w.(activity := Idle), id);
    }
  }

  lemma OnceWritten(w: World, write: WriteAnswer, id: Id)
    requires CalmInv(w) && w.activity.Handling? && w.activity.spot == Here && id < |w.conns|
    ensures OnceInv(Put(w, HandleWrite(At(w, w.activity.id), write)).(activity := Idle), id)
  {
    var y := HandleWrite(At(w, w.activity.id), write);
    GoodAt(w, w.activity.id);
    HandleWriteGood(At(w, w.activity.id), write, Chans(w.conns));
    OnceQuiet(w, y, id);
    OnceSwitch(Put(w, y), Put(w, y).(activity := Idle), id);
  }

  lemma OnceUser(w: World, user: Id, op: UserOp, id: Id)
    requires CalmInv(w) && user < |w.conns| && id < |w.conns|
    ensures OnceInv(Put(w, Use(At(w, user), op)), id)
  {
    GoodAt(w, user);
    UseGood(At(w, user), op, Chans(w.conns));
    OnceQuiet(w, Use(At(w, user), op), id);
  }

  lemma OnceRun(w: World, id: Id)
    requires CalmInv(w) && Enabled(w, RunFunctor) && WellFormed(w) && id < |w.conns|
    ensures OnceInv(Next(w, RunFunctor), id)
  {
    if w.batch[0].ConnectDestroyed? {
      OnceRunEnd(w, id);
    } else {
      assert OnceInv(w, id);
      assert w.batch == [w.batch[0]] + w.batch[1..];
      OnceSwitch(w, Next(w, RunFunctor), id);
    }
  }

  lemma OnceAccept(w: World, fd: int, id: Id)
    requires CalmInv(w) && Enabled(w, Accept(fd)) && id <= |w.conns|
    ensures OnceInv(Enter(w, fd), id)
  {
    AcceptAgrees(w, fd);
    OnceEntered(w, Enter(w, fd), fd, ConnectEstablished(Newcomer(w, fd)).conn, id);
  }

  lemma OnceStep(w: World, l: Label, id: Id)
    requires CalmInv(w) && Enabled(w, l) && WellFormed(w) && id < |Next(w, l).conns|
    ensures OnceInv(Next(w, l), id)
  {
    StepMovesForward(w, l);
    if l.Accept? {
      OnceAccept(w, l.fd, id);
    } else if l.Go? {
      OnceGo(w, l.read, l.write, id);
    } else {
      OnceOther(w, l, id);
    }
  }

  lemma OnceOther(w: World, l: Label, id: Id)
    requires CalmInv(w) && Enabled(w, l) && WellFormed(w) && id < |w.conns| && !l.Accept? && !l.Go?
    ensures OnceInv(Next(w, l), id)
  {
    assert OnceInv(w, id);
    match l
    case User(user, op) => OnceUser(w, user, op, id);
    case RunFunctor => OnceRun(w, id);
    case Teardown(ending) =>
      assert ConnInv(w, ending);
      OnceTeardown(w, ending, id);
    case _ => OnceIdle(w, l, id);
  }

  lemma OnceIdle(w: World, l: Label, id: Id)
    requires id < |w.conns| && OnceInv(w, id) && Enabled(w, l) && WellFormed(w)
    requires !l.Accept? && !l.Go? && !l.User? && !l.RunFunctor? && !l.Teardown?
    requires l.EventsDone? ==> w.batch == []
    ensures OnceInv(Next(w, l), id)
  {
    if l.EventsDone? {
      OnceSwap(w, id);
    } else if l.UserQueue? {
      OnceQueue(w, l.task, id);
    } else if l.ForeignPush? {
      OncePush(w, l.task, id);
    } else if l.Return? {
      OnceReturn(w, id);
    } else {
      OnceSwitch(w, Next(w, l), id);
    }
  }

  lemma OnceSwap(w: World, id: Id)
    requires id < |w.conns| && OnceInv(w, id) && w.batch == []
    ensures OnceInv(w.(phase := Functors, batch := w.loop.pending, loop := w.loop.(pending := [], calling := true)), id)
  {
  }

  lemma OnceQueue(w: World, task: nat, id: Id)
    requires id < |w.conns| && OnceInv(w, id)
    ensures OnceInv(w.(loop := Queue(w.loop, UserTask(task), true)), id)
  {
  }

  lemma OncePush(w: World, task: nat, id: Id)
    requires id < |w.conns| && OnceInv(w, id)
    ensures OnceInv(w.(loop := Push(w.loop, UserTask(task)), owed := w.owed + 1), id)
  {
  }

  lemma OnceReturn(w: World, id: Id)
    requires id < |w.conns| && OnceInv(w, id) && UserRuns(w) && WellFormed(w)
    ensures OnceInv(Next(w, Return), id)
  {
    OnceSwitch(w, Next(w, Return), id);
  }

  lemma {:induction false} CalmRunsKeepInv(w: World, labels: seq<Label>, w': World)
    requires CalmInv(w) && Leads(w, labels, w') && forall i :: 0 <= i < |labels| ==> Calm(labels[i])
    ensures CalmInv(w')
    decreases |labels|
  {
    if labels != [] {
      var next := Next(w, labels[0]);
      StepInv(w, labels[0]);
      CalmActivityStep(w, labels[0]);
      forall id: nat | id < |next.conns| ensures OnceInv(next, id) {
        OnceStep(w, labels[0], id);
      }
      CalmRunsKeepInv(next, labels[1..], w');
    }
  }

  /** Over every run in which no report can close a connection twice: a connection goes down, and
      its user is told, exactly when it becomes disconnected and never again; the server forgets
      it at most once; and connectDestroyed runs at most once, counting the run it is in and the
      ones still queued. */
  lemma DownAndDestroyedOnce(start: World, labels: seq<Label>, w: World, id: Id)
    requires Init(start) && Leads(start, labels, w) && id < |w.conns|
    requires forall i :: 0 <= i < |labels| ==> Calm(labels[i])
    ensures var t := TallyOf(w.conns[id].trace);
            && t.downs == (if w.conns[id].state == Disconnected then 1 else 0)
            && t.closes <= t.downs && t.destroys <= Ends(w, id) <= 1
  {
    InitInv(start);
    CalmRunsKeepInv(start, labels, w);
    assert OnceInv(w, id) && ConnInv(w, id);
    if w.conns[id].state != Disconnected {
      ClosesWhileOpen(w.conns[id].trace);
    }
  }

  // ---- Destroyed without a word ----

  /** The user of a connection that was destroyed has been told that it went down unless it was
      shutting down at that moment; and then the server had not forgotten it either. */
  lemma DestroyedUntoldIff(w: World, id: Id)
    requires Reachable(w) && id < |w.conns| && IsDestroyed(w.conns[id])
    ensures var t := TallyOf(w.conns[id].trace);
            && (t.downs == 0 <==> w.conns[id].state == Disconnecting)
            && (t.downs == 0 ==> t.closes == 0)
  {
    ReachableInv(w);
    assert ConnInv(w, id);
    DisconnectedIffTold(w.conns[id].trace);
    if w.conns[id].state == Disconnecting {
      ClosesWhileOpen(w.conns[id].trace);
    }
  }

  /** The destructor is where that happens: it tells the user exactly of the connections that are
      still connected. */
  lemma TeardownTellsIffConnected(w: World, id: Id)
    requires Reachable(w) && Enabled(w, Teardown(id))
    ensures WellFormed(w)
    ensures var before, after := TallyOf(w.conns[id].trace), TallyOf(Next(w, Teardown(id)).conns[id].trace);
            && before.downs == 0 && (after.downs == 1 <==> w.conns[id].state == Connected)
            && (w.conns[id].state != Connected ==> after.downs == 0 && w.conns[id].state == Disconnecting)
  {
    ReachableInv(w);
    InvIsWellFormed(w);
    assert ConnInv(w, id);
    DisconnectedIffTold(w.conns[id].trace);
    BeginTally(At(w, id));
  }

  lemma BeginTally<C>(x: Ctx<C>)
    ensures var downs := TallyOf(x.conn.trace).downs + if x.conn.state == Connected then 1 else 0;
            TallyOf(DestroyBegin(x).conn.trace).downs == downs
  {
  }
}
