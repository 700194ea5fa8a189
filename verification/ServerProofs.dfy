/** The invariant of the whole server, kept by every step. */
module ServerProofs {
  import opened Kernel
  import opened PollSpec
  import opened LoopSpec
  import opened ConnSpec
  import opened TraceSpec
  import opened ConnProofs
  import opened Naming
  import opened Server

  function Chans(conns: seq<Conn>): map<Id, Chan> {
    map i: nat | i < |conns| :: conns[i].chan
  }

  predicate ClosingNow(w: World, id: Id) {
    w.activity.Handling? && w.activity.id == id && (w.activity.spot == InDown || w.activity.spot == AtCloseCallback)
  }

  predicate EndingNow(w: World, id: Id) {
    w.activity.Ending? && w.activity.id == id
  }

  /** A connection that is no longer open but still registered is on its way to connectDestroyed. */
  predicate Doomed(w: World, id: Id) {
    || ConnectDestroyed(id) in w.loop.pending || ConnectDestroyed(id) in w.batch
    || ClosingNow(w, id) || EndingNow(w, id)
  }

  ghost predicate ConnInv(w: World, id: Id)
    requires id < |w.conns|
  {
    var c := w.conns[id];
    && Sound(c) && c.state != Connecting
    && (if id in w.freed then IsDestroyed(c) else c.chan.fd in w.openFds)
    && (!IsDestroyed(c) && !IsOpen(c) ==> Doomed(w, id))
    && (InMap(w, id) <==> if IsOpen(c) then !IsDestroyed(c) && !EndingNow(w, id)
                          else ClosingNow(w, id) && TallyOf(c.trace).closes == 0)
  }

  ghost predicate ConnsInv(w: World) {
    forall id: nat :: id < |w.conns| ==> ConnInv(w, id)
  }

  ghost predicate FdsInv(w: World) {
    forall i: nat, j: nat :: i < j < |w.conns| && i !in w.freed && j !in w.freed ==>
      w.conns[i].chan.fd != w.conns[j].chan.fd
  }

  ghost predicate MapInv(w: World) {
    forall n <- w.connections :: w.connections[n] < |w.conns| && n == NameOf(w, w.connections[n])
  }

  ghost predicate FunctorFits(w: World, f: Functor<Id>) {
    f.UserTask? || (f.conn < |w.conns| && f.conn !in w.freed
                    && (f.ConnectDestroyed? ==> && w.conns[f.conn].state == Disconnected
                                                && 0 < TallyOf(w.conns[f.conn].trace).closes))
  }

  ghost predicate FunctorsInv(w: World) {
    && (forall f <- w.loop.pending :: FunctorFits(w, f))
    && (forall f <- w.batch :: FunctorFits(w, f))
    && (w.phase != Events ==> forall f <- w.loop.pending :: !f.ConnectDestroyed?)
    && (w.phase != Functors ==> w.batch == [])
  }

  /** No channel epoll returned belongs to a connection gone or going. */
  ghost predicate ActiveInv(w: World) {
    && (w.phase != Events ==> w.active == [])
    && (forall i, j :: 0 <= i < j < |w.active| ==> w.active[i].id != w.active[j].id)
    && (forall i :: 0 <= i < |w.active| ==>
          && w.active[i].id < |w.conns|
          && IsOpen(w.conns[w.active[i].id]) && !IsDestroyed(w.conns[w.active[i].id])
          && (w.activity.Handling? ==> w.activity.id != w.active[i].id))
  }

  ghost predicate ActivityInv(w: World) {
    match w.activity
    case Idle => true
    case InTask => w.phase == Events || w.phase == Functors
    case Handling(id, _, _, spot) =>
      && w.phase == Events && id < |w.conns| && id !in w.freed && !IsDestroyed(w.conns[id])
      && (ClosingNow(w, id) ==> w.conns[id].state == Disconnected)
    case Ending(id, _) =>
      && (w.phase == Functors || w.phase == Stopped) && id < |w.conns| && id !in w.freed
      && w.conns[id].state in {Disconnecting, Disconnected}
  }

  /** The loop never goes to epoll_wait with queued work, a zero counter and no wake-up owed. */
  ghost predicate WakeInv(w: World) {
    && (w.loop.calling <==> w.phase == Functors)
    && (w.phase == Polling || w.phase == Functors ==> w.loop.pending == [] || 0 < w.loop.counter || 0 < w.owed)
  }

  ghost predicate Inv(w: World) {
    && |w.ipPort| <= LONGEST_IP_PORT && |w.conns| < INT_MAX && !w.dangling
    && (forall id <- w.freed :: id < |w.conns|)
    && Agreement(w.poll, Chans(w.conns))
    && ConnsInv(w) && FdsInv(w) && MapInv(w) && FunctorsInv(w)
    && ActiveInv(w) && ActivityInv(w) && WakeInv(w)
  }

  lemma InitInv(w: World)
    requires Init(w)
    ensures Inv(w)
  {
  }

  lemma InvIsWellFormed(w: World)
    requires Inv(w)
    ensures WellFormed(w)
  {
  }

  lemma ChansUpdate(conns: seq<Conn>, id: nat, c: Conn)
    requires id < |conns|
    ensures Chans(conns[id := c]) == Chans(conns)[id := c.chan]
  {
  }

  lemma ChansSnoc(conns: seq<Conn>, c: Conn)
    ensures Chans(conns + [c]) == Chans(conns)[|conns| := c.chan]
  {
  }

  lemma GoodAt(w: World, id: Id)
    requires Inv(w) && id < |w.conns|
    ensures Good(At(w, id), Chans(w.conns)) && w.conns[id].state != Connecting
  {
    assert ConnInv(w, id);
  }

  /** Distinct connections have distinct names. */
  lemma NamesApart(w: World, i: Id, j: Id)
    requires Inv(w) && i < |w.conns| && j < |w.conns| && i != j
    ensures NameOf(w, i) != NameOf(w, j)
  {
    NamesDiffer(w.name, w.ipPort, i + 1, j + 1);
  }

  // ---- Steps that leave the life of every connection as it is ----

  /** A quiet step of one connection: sending, shutting down, draining, setting a mark. */
  ghost predicate QuietStep(w: World, y: Ctx<Id>) {
    && Inv(w) && w.phase != Polling
    && y.self < |w.conns| && y.self !in w.freed && Quiet(At(w, y.self), y)
    && Good(y, Chans(w.conns)[y.self := y.conn.chan])
  }

  lemma QuietPut(w: World, y: Ctx<Id>)
    requires QuietStep(w, y)
    ensures Inv(Put(w, y))
  {
    ChansUpdate(w.conns, y.self, y.conn);
    QuietConns(w, y);
    QuietFunctors(w, y);
    QuietFds(w, y);
    QuietActivity(w, y);
  }

  lemma QuietFds(w: World, y: Ctx<Id>)
    requires QuietStep(w, y)
    ensures FdsInv(Put(w, y)) && MapInv(Put(w, y)) && WakeInv(Put(w, y))
  {
  }

  lemma QuietActivity(w: World, y: Ctx<Id>)
    requires ActiveInv(w) && ActivityInv(w) && y.self < |w.conns| && Quiet(At(w, y.self), y)
    ensures ActiveInv(Put(w, y)) && ActivityInv(Put(w, y))
  {
  }

  lemma QuietConns(w: World, y: Ctx<Id>)
    requires QuietStep(w, y)
    ensures ConnsInv(Put(w, y))
  {
    var w' := Put(w, y);
    forall id: nat | id < |w'.conns| ensures ConnInv(w', id) {
      assert ConnInv(w, id);
      NoticesOnly(w, y, id);
      assert Doomed(w', id) <==> Doomed(w, id);
      assert InMap(w', id) <==> InMap(w, id);
    }
  }

  lemma QuietFunctors(w: World, y: Ctx<Id>)
    requires QuietStep(w, y)
    ensures FunctorsInv(Put(w, y))
  {
    var w' := Put(w, y);
    forall f | f in w'.loop.pending
      ensures FunctorFits(w', f) && (w.phase != Events ==> !f.ConnectDestroyed?)
    {
      if f in w.loop.pending {
        assert FunctorFits(w, f);
      } else {
        var i :| 0 <= i < |w'.loop.pending| && w'.loop.pending[i] == f;
        assert |w.loop.pending| <= i;
      }
    }
    forall f | f in w'.batch ensures FunctorFits(w', f) {
      assert FunctorFits(w, f);
    }
  }

  lemma NoticesOnly(w: World, y: Ctx<Id>, id: Id)
    requires OnlyNotices(y.self, w.loop, y.loop)
    ensures ConnectDestroyed(id) in y.loop.pending <==> ConnectDestroyed(id) in w.loop.pending
  {
  }

  lemma UserInv(w: World, id: Id, op: UserOp)
    requires Inv(w) && UserRuns(w) && id < |w.conns| && id !in w.freed
    ensures Inv(Put(w, Use(At(w, id), op)))
  {
    GoodAt(w, id);
    UseGood(At(w, id), op, Chans(w.conns));
    QuietPut(w, Use(At(w, id), op));
  }

  /** The loop thread turns to something else, no connection's fate depending on it. */
  lemma Switch(w: World, a: Activity)
    requires Inv(w)
    requires var w' := w.(activity := a);
             && ActiveInv(w') && ActivityInv(w')
             && forall id :: (ClosingNow(w', id) <==> ClosingNow(w, id)) && (EndingNow(w', id) <==> EndingNow(w, id))
    ensures Inv(w.(activity := a))
  {
    var w' := w.(activity := a);
    forall id: nat | id < |w'.conns| ensures ConnInv(w', id) {
      assert ConnInv(w, id);
      assert Doomed(w', id) <==> Doomed(w, id);
      assert InMap(w', id) <==> InMap(w, id);
    }
    SameFunctors(w, w');
  }

  /** The queues keep their good standing while connections, references and phase are the same. */
  lemma SameFunctors(w: World, w': World)
    requires FunctorsInv(w) && w'.loop.pending == w.loop.pending && w'.batch == w.batch
    requires w'.conns == w.conns && w'.freed == w.freed && w'.phase == w.phase
    ensures FunctorsInv(w')
  {
  }

  /** The connection whose event is being handled takes a quiet step, and the dispatch goes on. */
  lemma QuietDispatch(w: World, y: Ctx<Id>, a: Activity)
    requires QuietStep(w, y) && w.activity.Handling? && w.activity.spot == Here && y.self == w.activity.id
    requires a == Idle || (a.Handling? && a.id == y.self && (a.spot == Here || a.spot == InMessage))
    ensures Inv(Put(w, y).(activity := a))
  {
    QuietPut(w, y);
    SwitchDispatch(Put(w, y), a);
  }

  lemma SwitchDispatch(w: World, a: Activity)
    requires Inv(w) && w.activity.Handling? && w.activity.spot == Here
    requires a == Idle || (a.Handling? && a.id == w.activity.id && (a.spot == Here || a.spot == InMessage))
    ensures Inv(w.(activity := a))
  {
    Switch(w, a);
  }

  lemma WriteStepInv(w: World, write: WriteAnswer)
    requires Inv(w) && w.activity.Handling? && w.activity.spot == Here
    ensures Inv(Put(w, HandleWrite(At(w, w.activity.id), write)).(activity := Idle))
  {
    var id := w.activity.id;
    GoodAt(w, id);
    HandleWriteGood(At(w, id), write, Chans(w.conns));
    QuietDispatch(w, HandleWrite(At(w, id), write), Idle);
  }

  lemma ArrivalInv(w: World, data: seq<Byte>)
    requires Inv(w) && w.activity.Handling? && w.activity.spot == Here
    ensures Inv(Put(w, Receive(At(w, w.activity.id), data)).(activity := w.activity.(stage := AtWritable, spot := InMessage)))
  {
    var id := w.activity.id;
    GoodAt(w, id);
    ReceiveGood(At(w, id), data, Chans(w.conns));
    assert Chans(w.conns)[id := w.conns[id].chan] == Chans(w.conns);
    QuietDispatch(w, Receive(At(w, id), data), w.activity.(stage := AtWritable, spot := InMessage));
  }

  // ---- Closing ----

  function CloseStep(w: World, stage: Stage): World
    requires w.activity.Handling? && w.activity.id < |w.conns|
  {
    Put(w, CloseBegin(At(w, w.activity.id))).(activity := w.activity.(stage := stage, spot := InDown))
  }

  /** All that the rest of the invariant needs to know of a server whose connection has just gone
      down in the middle of its dispatch. */
  ghost predicate Dropped(w: World, w': World, c: Conn) {
    && w.activity.Handling? && w.activity.spot == Here && w.activity.id < |w.conns|
    && var id := w.activity.id;
    && w'.conns == w.conns[id := c]
    && Sound(c) && c.state == Disconnected && !IsDestroyed(c) && c.chan.fd == w.conns[id].chan.fd
    && TallyOf(c.trace) == TallyOf(w.conns[id].trace).(downs := TallyOf(w.conns[id].trace).downs + 1)
    && w'.activity.Handling? && w'.activity.id == id && w'.activity.spot == InDown
    && w'.openFds == w.openFds && w'.name == w.name && w'.ipPort == w.ipPort && w'.freed == w.freed
    && w'.loop == w.loop && w'.owed == w.owed && w'.batch == w.batch && w'.phase == w.phase && w'.active == w.active
    && w'.dangling == w.dangling && w'.connections == w.connections
  }

  lemma CloseStepInv(w: World, stage: Stage)
    requires Inv(w) && w.activity.Handling? && w.activity.spot == Here
    ensures Inv(CloseStep(w, stage))
  {
    var w' := CloseStep(w, stage);
    CloseStepAgrees(w, stage);
    DroppedConns(w, w', w'.conns[w.activity.id]);
    DroppedRest(w, w', w'.conns[w.activity.id]);
    MovedFds(w, w');
  }

  lemma CloseStepAgrees(w: World, stage: Stage)
    requires Inv(w) && w.activity.Handling? && w.activity.spot == Here
    ensures var w' := CloseStep(w, stage);
            Dropped(w, w', w'.conns[w.activity.id]) && Agreement(w'.poll, Chans(w'.conns))
  {
    var id := w.activity.id;
    GoodAt(w, id);
    CloseBeginGood(At(w, id), Chans(w.conns));
    ChansUpdate(w.conns, id, CloseBegin(At(w, id)).conn);
  }

  lemma DroppedConns(w: World, w': World, c: Conn)
    requires Inv(w) && Dropped(w, w', c)
    ensures ConnsInv(w')
  {
    CloseStepMap(w);
    forall i: nat | i < |w'.conns| ensures ConnInv(w', i) {
      assert ConnInv(w, i);
      assert InMap(w', i) <==> InMap(w, i);
    }
  }

  lemma DroppedRest(w: World, w': World, c: Conn)
    requires Inv(w) && Dropped(w, w', c)
    ensures FunctorsInv(w') && ActiveInv(w') && ActivityInv(w') && WakeInv(w')
  {
    forall f | f in w.loop.pending || f in w.batch ensures FunctorFits(w', f) {
      assert FunctorFits(w, f);
    }
  }

  /** A connection about to close is in the map unless it was closed before. */
  lemma CloseStepMap(w: World)
    requires Inv(w) && w.activity.Handling? && w.activity.spot == Here
    ensures InMap(w, w.activity.id) <==> TallyOf(w.conns[w.activity.id].trace).closes == 0
  {
    var id := w.activity.id;
    assert ConnInv(w, id);
    if IsOpen(w.conns[id]) {
      ClosesWhileOpen(w.conns[id].trace);
    } else {
      assert FunctorFits(w, ConnectDestroyed(id));
    }
  }

  /** An open connection has not been forgotten by the server. */
  lemma {:induction false} ClosesWhileOpen(t: Trace)
    requires Legal(t) && StateOf(t) != Disconnected
    ensures TallyOf(t).closes == 0
  {
    if t.Then? {
      ClosesWhileOpen(t.before);
    }
  }

  /** Descriptors and names stay apart while connections keep theirs. */
  lemma MovedFds(w: World, w': World)
    requires FdsInv(w) && MapInv(w) && |w'.conns| == |w.conns| && w'.freed == w.freed
    requires w'.connections == w.connections && w'.name == w.name && w'.ipPort == w.ipPort
    requires forall i: nat :: i < |w.conns| ==> w'.conns[i].chan.fd == w.conns[i].chan.fd
    ensures FdsInv(w') && MapInv(w')
  {
  }

  /** All that the rest of the invariant needs to know of a server that has just forgotten the
      connection it is closing. */
  ghost predicate Forgotten(w: World, w': World, c: Conn) {
    && w.activity.Handling? && w.activity.spot == AtCloseCallback && w.activity.id < |w.conns|
    && var id := w.activity.id;
    && w'.conns == w.conns[id := c]
    && Sound(c) && c.state == w.conns[id].state && c.chan == w.conns[id].chan
    && TallyOf(c.trace) == TallyOf(w.conns[id].trace).(closes := TallyOf(w.conns[id].trace).closes + 1)
    && w'.connections == w.connections - {NameOf(w, id)}
    && w'.loop.pending == w.loop.pending + [ConnectDestroyed(id)]
    && w'.loop.calling == w.loop.calling && w'.loop.counter == w.loop.counter && w'.owed == w.owed
    && w'.openFds == w.openFds && w'.name == w.name && w'.ipPort == w.ipPort && w'.freed == w.freed
    && w'.batch == w.batch && w'.phase == w.phase && w'.active == w.active && w'.dangling == w.dangling
    && w'.activity == w.activity.(spot := Here)
  }

  /** The server forgets the connection and queues its end. */
  lemma ForgetInv(w: World)
    requires Inv(w) && w.activity.Handling? && w.activity.spot == AtCloseCallback
    ensures Inv(Forget(w, w.activity.id).(activity := w.activity.(spot := Here)))
  {
    var w' := Forget(w, w.activity.id).(activity := w.activity.(spot := Here));
    var c := w'.conns[w.activity.id];
    ForgetAgrees(w);
    ForgottenConns(w, w', c);
    ForgottenRest(w, w', c);
  }

  lemma ForgetAgrees(w: World)
    requires Inv(w) && w.activity.Handling? && w.activity.spot == AtCloseCallback
    ensures var w' := Forget(w, w.activity.id).(activity := w.activity.(spot := Here));
            Forgotten(w, w', w'.conns[w.activity.id]) && Agreement(w'.poll, Chans(w'.conns))
  {
    var id := w.activity.id;
    GoodAt(w, id);
    CloseEndGood(At(w, id), Chans(w.conns));
    ChansUpdate(w.conns, id, CloseEnd(At(w, id)).conn);
    assert Chans(w.conns)[id := w.conns[id].chan] == Chans(w.conns);
  }

  lemma ForgottenConns(w: World, w': World, c: Conn)
    requires Inv(w) && Forgotten(w, w', c)
    ensures ConnsInv(w')
  {
    var id := w.activity.id;
    assert w'.loop.pending[|w.loop.pending|] == ConnectDestroyed(id);
    forall i: nat | i < |w'.conns| ensures ConnInv(w', i) {
      assert ConnInv(w, i);
      if i != id {
        NamesApart(w, i, id);
        assert InMap(w', i) <==> InMap(w, i);
        assert ConnectDestroyed(i) in w.loop.pending ==> ConnectDestroyed(i) in w'.loop.pending;
      } else {
        assert NameOf(w', id) !in w'.connections;
      }
    }
  }

  lemma ForgottenRest(w: World, w': World, c: Conn)
    requires Inv(w) && Forgotten(w, w', c)
    ensures FdsInv(w') && MapInv(w') && FunctorsInv(w') && ActiveInv(w') && ActivityInv(w') && WakeInv(w')
  {
    forall f | f in w'.loop.pending || f in w'.batch ensures FunctorFits(w', f) {
      if f in w.loop.pending || f in w.batch {
        assert FunctorFits(w, f);
      }
    }
    forall n | n in w'.connections ensures w'.connections[n] < |w'.conns| && n == NameOf(w', w'.connections[n]) {
    }
  }

  // ---- Ending ----

  /** All that the rest of the invariant needs to know of a server in which one connection has
      taken the next step towards its end. */
  ghost predicate Ended(w: World, w': World, id: Id, c: Conn) {
    && id < |w.conns| && w'.conns == w.conns[id := c]
    && Sound(c) && c.state in {Disconnecting, Disconnected} && c.chan.fd == w.conns[id].chan.fd
    && (c.state == Disconnecting ==> w.conns[id].state == Disconnecting)
    && TallyOf(c.trace).closes == TallyOf(w.conns[id].trace).closes
    && w'.openFds == w.openFds && w'.name == w.name && w'.ipPort == w.ipPort && w'.freed == w.freed
    && w'.loop == w.loop && w'.owed == w.owed && w'.batch == w.batch && w'.phase == w.phase && w'.active == w.active
    && w'.dangling == w.dangling && w'.connections == w.connections - {NameOf(w, id)}
  }

  ghost predicate CanEnd(w: World, id: Id) {
    && Inv(w) && w.activity == Idle && (w.phase == Functors || w.phase == Stopped)
    && id < |w.conns| && id !in w.freed && (IsOpen(w.conns[id]) ==> InMap(w, id))
  }

  /** connectDestroyed begins, for a connection the map no longer holds or is just giving up. */
  lemma BeginEndingInv(w: World, id: Id)
    requires CanEnd(w, id)
    ensures Inv(BeginEnding(w.(connections := w.connections - {NameOf(w, id)}), id))
  {
    var w' := BeginEnding(w.(connections := w.connections - {NameOf(w, id)}), id);
    BeginEndingAgrees(w, id);
    BegunConns(w, w', id, w'.conns[id]);
    EndedRest(w, w', id, w'.conns[id]);
  }

  lemma BeginEndingAgrees(w: World, id: Id)
    requires CanEnd(w, id)
    ensures var w' := BeginEnding(w.(connections := w.connections - {NameOf(w, id)}), id);
            && Ended(w, w', id, w'.conns[id]) && EndingNow(w', id)
            && IsDestroyed(w'.conns[id]) == IsDestroyed(w.conns[id])
            && (IsOpen(w.conns[id]) ==>
                  var downs := TallyOf(w.conns[id].trace).downs + if w'.conns[id].state == Disconnected then 1 else 0;
                  TallyOf(w'.conns[id].trace) == TallyOf(w.conns[id].trace).(downs := downs))
            && Agreement(w'.poll, Chans(w'.conns))
  {
    GoodAt(w, id);
    DestroyBeginGood(At(w, id), Chans(w.conns));
    ChansUpdate(w.conns, id, DestroyBegin(At(w, id)).conn);
  }

  lemma BegunConns(w: World, w': World, id: Id, c: Conn)
    requires CanEnd(w, id) && Ended(w, w', id, c) && EndingNow(w', id)
    requires IsDestroyed(c) == IsDestroyed(w.conns[id])
    ensures ConnsInv(w')
  {
    forall i: nat | i < |w'.conns| ensures ConnInv(w', i) {
      assert ConnInv(w, i);
      if i != id {
        NamesApart(w, i, id);
        assert InMap(w', i) <==> InMap(w, i);
      }
    }
  }

  lemma EndedRest(w: World, w': World, id: Id, c: Conn)
    requires Inv(w) && Ended(w, w', id, c) && id !in w.freed && w.phase != Events
    requires EndingNow(w', id) || w'.activity == Idle
    ensures FdsInv(w') && MapInv(w') && FunctorsInv(w') && ActiveInv(w') && WakeInv(w')
    ensures w.phase == Functors || w.phase == Stopped ==> ActivityInv(w')
  {
    forall f | f in w'.loop.pending || f in w'.batch ensures FunctorFits(w', f) {
      assert FunctorFits(w, f);
    }
    forall i: nat, j: nat | i < j < |w'.conns| && i !in w'.freed && j !in w'.freed
      ensures w'.conns[i].chan.fd != w'.conns[j].chan.fd
    {
      assert w.conns[i].chan.fd != w.conns[j].chan.fd;
    }
    forall n | n in w'.connections ensures w'.connections[n] < |w'.conns| && n == NameOf(w', w'.connections[n]) {
    }
  }

  lemma DestroyStepInv(w: World)
    requires Inv(w) && w.activity.Ending?
    ensures Inv(Put(w, DestroyEnd(At(w, w.activity.id))).(activity := Idle))
  {
    var id := w.activity.id;
    var w' := Put(w, DestroyEnd(At(w, id))).(activity := Idle);
    assert ConnInv(w, id);
    NotInMap(w, id);
    DestroyStepAgrees(w);
    DestroyedConns(w, w', w'.conns[id]);
    EndedRest(w, w', id, w'.conns[id]);
  }

  lemma DestroyStepAgrees(w: World)
    requires Inv(w) && w.activity.Ending? && !InMap(w, w.activity.id)
    ensures var id := w.activity.id;
            var w' := Put(w, DestroyEnd(At(w, id))).(activity := Idle);
            && Ended(w, w', id, w'.conns[id]) && IsDestroyed(w'.conns[id])
            && Agreement(w'.poll, Chans(w'.conns))
  {
    var id := w.activity.id;
    GoodAt(w, id);
    DescriptorIsOurs(w, id);
    NotInMap(w, id);
    DestroyEndGood(At(w, id), Chans(w.conns));
    ChansUpdate(w.conns, id, DestroyEnd(At(w, id)).conn);
  }

  lemma DestroyedConns(w: World, w': World, c: Conn)
    requires Inv(w) && w.activity.Ending? && Ended(w, w', w.activity.id, c)
    requires w'.activity == Idle && IsDestroyed(c)
    ensures ConnsInv(w')
  {
    var id := w.activity.id;
    forall i: nat | i < |w'.conns| ensures ConnInv(w', i) {
      assert ConnInv(w, i);
      if i != id {
        NamesApart(w, i, id);
        assert InMap(w', i) <==> InMap(w, i);
      } else {
        assert !InMap(w', i);
      }
    }
  }

  /** A registered channel belongs to a connection not destroyed, let alone freed, whose
      descriptor is open. */
  lemma RegisteredIsLive(w: World, fd: int)
    requires Inv(w) && fd in w.poll.channels
    ensures var id := w.poll.channels[fd];
            && id < |w.conns| && w.conns[id].chan.fd == fd && w.conns[id].chan.index != New
            && !IsDestroyed(w.conns[id]) && id !in w.freed && fd in w.openFds
  {
    var id := w.poll.channels[fd];
    assert id in Chans(w.conns);
    assert ConnInv(w, id);
  }

  /** The kernel's set is part of the map. */
  lemma PolledIsRegistered(w: World, fd: int)
    requires Inv(w) && fd in w.poll.epoll
    ensures fd in w.poll.channels && w.poll.channels[fd] == w.poll.epoll[fd].ptr
  {
  }

  /** No other registered channel has the descriptor of a connection not yet freed. */
  lemma DescriptorIsOurs(w: World, id: Id)
    requires Inv(w) && id < |w.conns| && id !in w.freed
    ensures Distinct(w.poll, w.conns[id].chan)
  {
    if w.conns[id].chan.fd in w.poll.channels {
      RegisteredIsLive(w, w.conns[id].chan.fd);
    }
  }

  // ---- Accepting ----

  lemma FreshDescriptor(w: World, fd: int)
    requires Inv(w) && fd !in w.openFds
    ensures fd !in w.poll.channels && fd !in w.poll.epoll
  {
    if fd in w.poll.channels {
      RegisteredIsLive(w, fd);
    }
    if fd in w.poll.epoll {
      PolledIsRegistered(w, fd);
    }
  }

  lemma FreshName(w: World)
    requires Inv(w) && |w.conns| + 2 <= INT_MAX
    ensures NameOf(w, |w.conns|) !in w.connections
  {
    forall n | n in w.connections ensures n != NameOf(w, |w.conns|) {
      NamesDiffer(w.name, w.ipPort, w.connections[n] + 1, |w.conns| + 1);
    }
  }

  ghost predicate CanAccept(w: World, fd: int) {
    Inv(w) && w.phase == Events && w.activity == Idle && fd !in w.openFds && |w.conns| + 2 <= INT_MAX
  }

  function Newcomer(w: World, fd: int): Ctx<Id> {
    Ctx(|w.conns|, NewConn(fd, w.completes), w.poll, w.loop)
  }

  /** All that the rest of the invariant needs to know of a server one connection richer. */
  ghost predicate Entered(w: World, w': World, fd: int, c: Conn) {
    && w'.conns == w.conns + [c] && Sound(c) && c.state == Connected && !IsDestroyed(c) && c.chan.fd == fd
    && TallyOf(c.trace) == Tally(1, 0, 0, 0, 0)
    && w'.connections == w.connections[NameOf(w, |w.conns|) := |w.conns|] && w'.openFds == w.openFds + {fd}
    && w'.name == w.name && w'.ipPort == w.ipPort && w'.freed == w.freed
    && w'.loop == w.loop && w'.owed == w.owed && w'.batch == w.batch && w'.phase == w.phase && w'.active == w.active
    && w'.activity == InTask && w'.dangling == w.dangling
  }

  ghost predicate Vacant(w: World, fd: int) {
    Agreement(w.poll, Chans(w.conns)) && fd !in w.poll.channels && fd !in w.poll.epoll
  }

  lemma NewcomerGood(w: World, fd: int)
    requires Vacant(w, fd)
    ensures var x := Newcomer(w, fd);
            && Good(x, Chans(w.conns)[|w.conns| := x.conn.chan])
            && x.conn.state == Connecting && x.conn.output == []
  {
    NewConnGood(|w.conns|, fd, w.completes, w.poll, w.loop, Chans(w.conns));
  }

  lemma NewcomerSound(w: World, fd: int)
    requires Vacant(w, fd)
    ensures Sound(ConnectEstablished(Newcomer(w, fd)).conn)
  {
    NewcomerGood(w, fd);
    FirstUp(Newcomer(w, fd), Chans(w.conns));
  }

  lemma NewcomerAgrees(w: World, fd: int)
    requires Vacant(w, fd)
    ensures var y := ConnectEstablished(Newcomer(w, fd));
            Agreement(y.poll, Chans(w.conns + [y.conn]))
  {
    NewcomerGood(w, fd);
    FirstUp(Newcomer(w, fd), Chans(w.conns));
    ChansSnoc(w.conns, ConnectEstablished(Newcomer(w, fd)).conn);
  }

  lemma NewcomerUp(w: World, fd: int)
    ensures var y := ConnectEstablished(Newcomer(w, fd));
            && y.conn.state == Connected && y.conn.chan.fd == fd && y.loop == w.loop
            && y.conn.completes == w.completes && y.conn.input == [] && y.conn.output == []
            && TallyOf(y.conn.trace) == Tally(1, 0, 0, 0, 0)
  {
  }

  lemma EnterIs(w: World, fd: int)
    ensures var y := ConnectEstablished(Newcomer(w, fd));
            Enter(w, fd) == w.(conns := w.conns + [y.conn],
                               connections := w.connections[NameOf(w, |w.conns|) := |w.conns|],
                               openFds := w.openFds + {fd}, poll := y.poll, loop := y.loop, activity := InTask)
  {
  }

  lemma AcceptAgrees(w: World, fd: int)
    requires CanAccept(w, fd)
    ensures var w' := Enter(w, fd);
            && Entered(w, w', fd, ConnectEstablished(Newcomer(w, fd)).conn)
            && Agreement(w'.poll, Chans(w'.conns))
  {
    EnterIs(w, fd);
    FreshDescriptor(w, fd);
    NewcomerSound(w, fd);
    NewcomerAgrees(w, fd);
    NewcomerUp(w, fd);
  }

  lemma AcceptInv(w: World, fd: int)
    requires CanAccept(w, fd)
    ensures Inv(Enter(w, fd))
  {
    var c := ConnectEstablished(Newcomer(w, fd)).conn;
    var w' := Enter(w, fd);
    AcceptAgrees(w, fd);
    EnteredConns(w, w', fd, c);
    EnteredFds(w, w', fd, c);
    EnteredRest(w, w', fd, c);
  }

  lemma EnteredFds(w: World, w': World, fd: int, c: Conn)
    requires CanAccept(w, fd) && Entered(w, w', fd, c)
    ensures FdsInv(w') && MapInv(w')
  {
    forall i: nat, j: nat | i < j < |w'.conns| && i !in w'.freed && j !in w'.freed
      ensures w'.conns[i].chan.fd != w'.conns[j].chan.fd
    {
      assert ConnInv(w, i);
      assert j < |w.conns| ==> w.conns[i].chan.fd != w.conns[j].chan.fd;
    }
    forall n | n in w'.connections ensures w'.connections[n] < |w'.conns| && n == NameOf(w', w'.connections[n]) {
    }
  }

  lemma EnteredConns(w: World, w': World, fd: int, c: Conn)
    requires CanAccept(w, fd) && Entered(w, w', fd, c)
    ensures ConnsInv(w')
  {
    forall i: nat | i < |w.conns| ensures ConnInv(w', i) {
      EnteredOther(w, w', fd, c, i);
    }
    assert ConnInv(w', |w.conns|);
  }

  lemma EnteredOther(w: World, w': World, fd: int, c: Conn, i: Id)
    requires CanAccept(w, fd) && Entered(w, w', fd, c) && i < |w.conns|
    ensures ConnInv(w', i)
  {
    assert ConnInv(w, i);
    NamesDiffer(w.name, w.ipPort, i + 1, |w.conns| + 1);
    assert InMap(w', i) <==> InMap(w, i);
  }

  lemma EnteredRest(w: World, w': World, fd: int, c: Conn)
    requires CanAccept(w, fd) && Entered(w, w', fd, c)
    ensures FunctorsInv(w') && ActiveInv(w') && ActivityInv(w') && WakeInv(w')
  {
  }

  // ---- The rest ----

  /** A task leaves the batch; if it was a connection's end, that end is under way. */
  lemma DropHeadInv(w: World)
    requires Inv(w) && w.batch != []
    requires w.batch[0].ConnectDestroyed? ==> EndingNow(w, w.batch[0].conn)
    ensures Inv(w.(batch := w.batch[1..], ran := w.ran + [w.batch[0]]))
  {
    var w' := w.(batch := w.batch[1..], ran := w.ran + [w.batch[0]]);
    assert w.batch == [w.batch[0]] + w'.batch;
    forall i: nat | i < |w'.conns| ensures ConnInv(w', i) {
      assert ConnInv(w, i);
      assert InMap(w', i) <==> InMap(w, i);
    }
    forall f | f in w'.loop.pending || f in w'.batch ensures FunctorFits(w', f) {
      assert FunctorFits(w, f);
    }
  }

  lemma RunFunctorInv(w: World)
    requires Inv(w) && w.phase == Functors && w.activity == Idle && w.batch != []
    ensures WellFormed(w) && Inv(Next(w, RunFunctor))
  {
    InvIsWellFormed(w);
    var f := w.batch[0];
    assert FunctorFits(w, f);
    if f.ConnectDestroyed? {
      RunEndInv(w, f.conn);
    } else {
      DropHeadInv(w);
      Switch(w.(batch := w.batch[1..], ran := w.ran + [f]), InTask);
    }
  }

  lemma RunEndInv(w: World, id: Id)
    requires Inv(w) && w.phase == Functors && w.activity == Idle && w.batch != [] && w.batch[0] == ConnectDestroyed(id)
    ensures id < |w.conns| && Inv(BeginEnding(w.(batch := w.batch[1..], ran := w.ran + [w.batch[0]]), id))
  {
    assert FunctorFits(w, w.batch[0]);
    assert ConnInv(w, id);
    NotInMap(w, id);
    BeginEndingInv(w, id);
    DropHeadInv(BeginEnding(w, id));
  }

  lemma NotInMap(w: World, id: Id)
    requires Inv(w) && id < |w.conns| && !InMap(w, id)
    ensures w.(connections := w.connections - {NameOf(w, id)}) == w
  {
    if NameOf(w, id) in w.connections {
      var other := w.connections[NameOf(w, id)];
      NamesApart(w, id, other);
    }
    assert w.connections - {NameOf(w, id)} == w.connections;
  }

  lemma FreeInv(w: World, id: Id)
    requires Inv(w) && id < |w.conns| && id !in w.freed && !Held(w, id)
    ensures Inv(w.(freed := w.freed + {id}, openFds := w.openFds - {w.conns[id].chan.fd}))
    ensures IsDestroyed(w.conns[id])
  {
    var w' := w.(freed := w.freed + {id}, openFds := w.openFds - {w.conns[id].chan.fd});
    assert ConnInv(w, id);
    assert !InMap(w, id);
    assert Names(ConnectDestroyed(id), id);
    forall i: nat | i < |w'.conns| ensures ConnInv(w', i) {
      assert ConnInv(w, i);
      assert InMap(w', i) <==> InMap(w, i);
      assert i !in w.freed && i != id ==> w.conns[i].chan.fd != w.conns[id].chan.fd;
    }
    forall f | f in w.loop.pending || f in w.batch ensures FunctorFits(w', f) {
      assert FunctorFits(w, f);
      assert !Names(f, id);
    }
  }

  lemma PollInv(w: World, ready: seq<Ready>)
    requires Inv(w) && w.phase == Polling && w.activity == Idle && Reported(w, ready)
    ensures Inv(w.(phase := Events, active := ready))
  {
    PhaseInv(w, Events);
    var w' := w.(phase := Events, active := ready);
    forall i | 0 <= i < |ready|
      ensures ready[i].id < |w.conns| && IsOpen(w.conns[ready[i].id]) && !IsDestroyed(w.conns[ready[i].id])
    {
      assert Pollable(w, ready[i]);
      var fd :| fd in w.poll.epoll && w.poll.epoll[fd].ptr == ready[i].id;
      PolledIsRegistered(w, fd);
      RegisteredIsLive(w, fd);
      assert ConnInv(w, ready[i].id);
    }
    SetActive(w.(phase := Events), ready);
  }

  lemma SetActive(w: World, ready: seq<Ready>)
    requires Inv(w) && ActiveInv(w.(active := ready))
    ensures Inv(w.(active := ready))
  {
    var w' := w.(active := ready);
    forall i: nat | i < |w'.conns| ensures ConnInv(w', i) {
      assert ConnInv(w, i);
      assert InMap(w', i) <==> InMap(w, i);
    }
    SameFunctors(w, w');
  }

  /** Moving on to a phase whose demands on queue, batch and counter are met. */
  lemma PhaseInv(w: World, phase: Phase)
    requires Inv(w) && w.active == [] && w.batch == [] && w.activity == Idle && phase != Functors && !w.loop.calling
    requires phase != Events ==> forall f <- w.loop.pending :: !f.ConnectDestroyed?
    requires phase == Polling ==> w.loop.pending == [] || 0 < w.loop.counter || 0 < w.owed
    ensures Inv(w.(phase := phase))
  {
    var w' := w.(phase := phase);
    forall i: nat | i < |w'.conns| ensures ConnInv(w', i) {
      assert ConnInv(w, i);
      assert InMap(w', i) <==> InMap(w, i);
    }
    forall f | f in w.loop.pending ensures FunctorFits(w', f) {
      assert FunctorFits(w, f);
    }
  }

  /** The queue or the counter changes, for the better. */
  lemma LoopInv(w: World, loop: LoopState<Functor<Id>>, owed: nat)
    requires Inv(w) && WakeInv(w.(loop := loop, owed := owed))
    requires forall f :: f in loop.pending ==> f in w.loop.pending || f.UserTask?
    requires forall f :: f in w.loop.pending ==> f in loop.pending
    ensures Inv(w.(loop := loop, owed := owed))
  {
    var w' := w.(loop := loop, owed := owed);
    forall i: nat | i < |w'.conns| ensures ConnInv(w', i) {
      assert ConnInv(w, i);
      assert InMap(w', i) <==> InMap(w, i);
    }
    forall f | f in w'.loop.pending || f in w'.batch ensures FunctorFits(w', f) {
      assert f in w.loop.pending || f in w.batch || f.UserTask?;
      if f in w.loop.pending || f in w.batch {
        assert FunctorFits(w, f);
      }
    }
  }

  /** The swap. */
  lemma SwapInv(w: World)
    requires Inv(w) && w.phase == Events && w.activity == Idle && w.active == []
    ensures Inv(w.(phase := Functors, batch := w.loop.pending, loop := w.loop.(pending := [], calling := true)))
  {
    var w' := w.(phase := Functors, batch := w.loop.pending, loop := w.loop.(pending := [], calling := true));
    forall i: nat | i < |w'.conns| ensures ConnInv(w', i) {
      assert ConnInv(w, i);
      assert InMap(w', i) <==> InMap(w, i);
    }
    forall f | f in w'.batch ensures FunctorFits(w', f) {
      assert FunctorFits(w, f);
    }
  }

  lemma RoundDoneInv(w: World)
    requires Inv(w) && w.phase == Functors && w.activity == Idle && w.batch == []
    ensures Inv(w.(phase := Polling, loop := w.loop.(calling := false)))
  {
    var w' := w.(phase := Polling, loop := w.loop.(calling := false));
    forall i: nat | i < |w'.conns| ensures ConnInv(w', i) {
      assert ConnInv(w, i);
      assert InMap(w', i) <==> InMap(w, i);
    }
    forall f | f in w'.loop.pending ensures FunctorFits(w', f) {
      assert FunctorFits(w, f);
    }
  }

  lemma DispatchInv(w: World)
    requires Inv(w) && w.phase == Events && w.activity == Idle && w.active != []
    ensures WellFormed(w) && Inv(Next(w, Dispatch))
  {
    InvIsWellFormed(w);
    var r := w.active[0];
    assert ConnInv(w, r.id);
    SetActive(w, w.active[1..]);
    Switch(w.(active := w.active[1..]), Handling(r.id, r.revents, AtHangup, Here));
  }

  lemma HangupInv(w: World, read: ReadAnswer, write: WriteAnswer)
    requires Inv(w) && w.activity.Handling? && w.activity.spot == Here && w.activity.stage == AtHangup
    ensures Inv(Advance(w, read, write))
  {
    if Hup in w.activity.revents && In !in w.activity.revents {
      CloseStepInv(w, AtReadable);
    } else {
      Switch(w, w.activity.(stage := AtReadable));
    }
  }

  lemma ReadableInv(w: World, read: ReadAnswer, write: WriteAnswer)
    requires Inv(w) && w.activity.Handling? && w.activity.spot == Here && w.activity.stage == AtReadable
    ensures Inv(Advance(w, read, write))
  {
    if (In !in w.activity.revents && Pri !in w.activity.revents) || read.Fails? {
      Switch(w, w.activity.(stage := AtWritable));
    } else if read.data == [] {
      CloseStepInv(w, AtWritable);
    } else {
      ArrivalInv(w, read.data);
    }
  }

  lemma WritableInv(w: World, read: ReadAnswer, write: WriteAnswer)
    requires Inv(w) && w.activity.Handling? && w.activity.spot == Here && w.activity.stage == AtWritable
    ensures Inv(Advance(w, read, write))
  {
    if Out in w.activity.revents {
      WriteStepInv(w, write);
    } else {
      Switch(w, Idle);
    }
  }

  lemma GoInv(w: World, read: ReadAnswer, write: WriteAnswer)
    requires Inv(w) && Enabled(w, Go(read, write))
    ensures WellFormed(w) && Inv(Next(w, Go(read, write)))
  {
    InvIsWellFormed(w);
    var a := w.activity;
    if a.Ending? {
      DestroyStepInv(w);
    } else if a.spot == AtCloseCallback {
      ForgetInv(w);
    } else {
      match a.stage
      case AtHangup => HangupInv(w, read, write);
      case AtReadable => ReadableInv(w, read, write);
      case AtWritable => WritableInv(w, read, write);
    }
  }

  lemma ReturnInv(w: World)
    requires Inv(w) && UserRuns(w)
    ensures WellFormed(w) && Inv(Next(w, Return))
  {
    InvIsWellFormed(w);
    Switch(w, Next(w, Return).activity);
  }

  /** Every step the server can take keeps the invariant. */
  lemma StepInv(w: World, l: Label)
    requires Inv(w) && Enabled(w, l)
    ensures WellFormed(w) && Inv(Next(w, l))
  {
    InvIsWellFormed(w);
    match l
    case PollReturns(ready) => PollInv(w, ready);
    case Dispatch => DispatchInv(w);
    case Accept(fd) => AcceptInv(w, fd);
    case ReadWakeup => LoopInv(w, w.loop.(counter := 0), w.owed);
    case EventsDone => SwapInv(w);
    case RunFunctor => RunFunctorInv(w);
    case FunctorsDone => RoundDoneInv(w);
    case Go(read, write) => GoInv(w, read, write);
    case User(id, op) => UserInv(w, id, op);
    case UserQueue(task) => LoopInv(w, Queue(w.loop, UserTask(task), true), w.owed);
    case ForeignPush(task) => LoopInv(w, Push(w.loop, UserTask(task)), w.owed + 1);
    case ForeignWake => LoopInv(w, Wakeup(w.loop), w.owed - 1);
    case Return => ReturnInv(w);
    case Free(id) => FreeInv(w, id);
    case Stop => PhaseInv(w, Stopped);
    case Teardown(id) =>
      assert ConnInv(w, id);
      BeginEndingInv(w, id);
  }
}
