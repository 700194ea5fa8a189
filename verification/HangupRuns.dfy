/** How exact the condition on reports is under which a connection ends only once: any report that
    breaks it can be continued, calmly, into a run that takes a connection down twice. */
module HangupRuns {
  import opened Kernel
  import opened ConnTheorems
  import opened Server
  import opened ServerProofs
  import opened ServerTheorems
  import opened Lifecycle

  ghost predicate AllCalm(labels: seq<Label>) {
    forall i :: 0 <= i < |labels| ==> Calm(labels[i])
  }

  /** No calm run from here takes a connection down twice. */
  ghost predicate EndsOnce(w: World) {
    forall labels, w', id: nat ::
      Leads(w, labels, w') && AllCalm(labels) && id < |w'.conns| ==> Downs(At(w', id)) <= 1
  }

  lemma EndsOnceNext(w: World, l: Label)
    requires EndsOnce(w) && Enabled(w, l) && WellFormed(w) && Calm(l)
    ensures EndsOnce(Next(w, l))
  {
    forall labels, w', id: nat | Leads(Next(w, l), labels, w') && AllCalm(labels) && id < |w'.conns|
      ensures Downs(At(w', id)) <= 1
    {
      LeadsCons(w, l, labels, w');
      assert AllCalm([l] + labels);
    }
  }

  lemma EndsOnceNow(w: World, id: Id)
    requires EndsOnce(w) && id < |w.conns|
    ensures Downs(At(w, id)) <= 1
  {
    assert Leads(w, [], w);
  }

  // ---- A second close ----

  const QUIET: Label := Go(Fails, Refuses(OtherError))
  const PEER_CLOSED: Label := Go(Offers([]), Refuses(OtherError))

  /** Hang-up, the user's callback, the close callback, and then a read that finds the end. */
  lemma SecondClose(w: World)
    requires Inv(w) && w.activity.Handling? && TwiceMask(w.activity.revents)
    requires w.activity.stage == AtHangup && w.activity.spot == Here
    ensures !EndsOnce(w)
  {
    if EndsOnce(w) {
      var id := w.activity.id;
      var closed := FirstClose(w);
      var w' := StepOn(closed, PEER_CLOSED);
      CloseTally(At(closed, id));
      EndsOnceNow(w', id);
    }
  }

  lemma FirstClose(w: World) returns (closed: World)
    requires Inv(w) && EndsOnce(w) && w.activity.Handling? && TwiceMask(w.activity.revents)
    requires w.activity.stage == AtHangup && w.activity.spot == Here
    ensures Inv(closed) && EndsOnce(closed) && |closed.conns| == |w.conns|
    ensures closed.activity == w.activity.(stage := AtReadable) && 0 < Downs(At(closed, w.activity.id))
  {
    CloseTally(At(w, w.activity.id));
    var hung := StepOn(w, QUIET);
    closed := FinishClose(hung);
  }

  /** From the user's callback of a closing connection, through the close callback. */
  lemma FinishClose(w: World) returns (closed: World)
    requires Inv(w) && EndsOnce(w) && w.activity.Handling? && w.activity.spot == InDown
    ensures Inv(closed) && EndsOnce(closed) && |closed.conns| == |w.conns|
    ensures closed.activity == w.activity.(spot := Here)
    ensures Downs(At(closed, w.activity.id)) == Downs(At(w, w.activity.id))
  {
    var back := StepOn(w, Return);
    ForgetTally(At(back, w.activity.id));
    closed := StepOn(back, QUIET);
  }

  lemma StepOn(w: World, l: Label) returns (next: World)
    requires Inv(w) && Enabled(w, l) && Calm(l) && EndsOnce(w)
    ensures WellFormed(w) && next == Next(w, l) && Inv(next) && EndsOnce(next)
  {
    InvIsWellFormed(w);
    StepInv(w, l);
    EndsOnceNext(w, l);
    next := Next(w, l);
  }

  // ---- Getting there ----

  function StageRank(s: Stage): nat {
    match s case AtHangup => 3 case AtReadable => 2 case AtWritable => 1
  }

  function SpotRank(s: Spot): nat {
    match s case InDown => 2 case AtCloseCallback => 1 case InMessage => 1 case Here => 0
  }

  /** The loop thread's next step inside an event brings its end nearer. */
  ghost predicate Nearer(w: World, next: World)
    requires w.activity.Handling?
  {
    && next.phase == w.phase && next.active == w.active
    && (next.activity == Idle
        || (next.activity.Handling?
            && (StageRank(next.activity.stage) < StageRank(w.activity.stage)
                || (next.activity.stage == w.activity.stage
                    && SpotRank(next.activity.spot) < SpotRank(w.activity.spot)))))
  }

  lemma Progress(w: World)
    requires w.activity.Handling? && WellFormed(w)
    ensures Nearer(w, Next(w, if UserRuns(w) then Return else QUIET))
  {
    if w.activity.spot == Here {
      AdvanceProgress(w);
    }
  }

  lemma AdvanceProgress(w: World)
    requires w.activity.Handling? && w.activity.spot == Here && w.activity.id < |w.conns|
    ensures Nearer(w, Advance(w, Fails, Refuses(OtherError)))
  {
  }

  /** An event under way can be finished without another report, the rest still waiting. */
  lemma {:induction false} FinishEvent(w: World) returns (done: World)
    requires Inv(w) && EndsOnce(w) && w.activity.Handling?
    ensures Inv(done) && EndsOnce(done)
    ensures done.phase == Events && done.activity == Idle && done.active == w.active
    decreases StageRank(w.activity.stage), SpotRank(w.activity.spot)
  {
    done := StepOn(w, if UserRuns(w) then Return else QUIET);
    Progress(w);
    if done.activity != Idle {
      done := FinishEvent(done);
    }
  }

  /** One report that can close a connection twice is enough, wherever it stands in the list. */
  lemma {:induction false} WaitingTwice(w: World, i: nat)
    requires Inv(w) && w.phase == Events && w.activity == Idle && i < |w.active|
    requires TwiceMask(w.active[i].revents)
    ensures !EndsOnce(w)
    decreases i
  {
    if EndsOnce(w) {
      var w1 := StepOn(w, Dispatch);
      if i == 0 {
        SecondClose(w1);
      } else {
        var w2 := FinishEvent(w1);
        WaitingTwice(w2, i - 1);
      }
    }
  }

  /** After any calm run, the next report of epoll_wait keeps every connection from going down
      twice, over all calm runs to come, exactly when it is calm itself. */
  lemma EndsOnceIffCalm(start: World, labels: seq<Label>, w: World, ready: seq<Ready>)
    requires Init(start) && Leads(start, labels, w) && AllCalm(labels)
    requires Enabled(w, PollReturns(ready)) && WellFormed(w)
    ensures EndsOnce(Next(w, PollReturns(ready))) <==> Calm(PollReturns(ready))
  {
    var next := Next(w, PollReturns(ready));
    InitInv(start);
    LeadsKeepsInv(start, labels, w);
    StepInv(w, PollReturns(ready));
    if Calm(PollReturns(ready)) {
      CalmRunsKeepInv(start, labels, w);
      CalmActivityStep(w, PollReturns(ready));
      forall id: nat | id < |next.conns| ensures OnceInv(next, id) {
        OnceStep(w, PollReturns(ready), id);
      }
      forall more, w', id: nat | Leads(next, more, w') && AllCalm(more) && id < |w'.conns|
        ensures Downs(At(w', id)) <= 1
      {
        CalmRunsKeepInv(next, more, w');
        assert OnceInv(w', id);
      }
    } else {
      var i :| 0 <= i < |ready| && TwiceMask(ready[i].revents);
      WaitingTwice(next, i);
    }
  }
}
