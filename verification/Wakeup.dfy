/** The wake-up protocol: one loop thread, any number of other threads, every interleaving of
    their atomic steps. A state is taken from the moment loop() has reset its quit flag. */
module WakeupProtocol {
  import opened LoopSpec

  type Task = nat
  type Thread = nat

  /** Where the loop thread is: testing quit, in epoll_wait, handling the events it returned (the
      wake-up channel among them or not), about to swap, running the batch, or out of loop(). */
  datatype LoopPc = AtCheck | AtPoll | AtEvents(wakeupActive: bool) | AtSwap | AtBatch | Exited

  /** queue is pendingFunctors_, callingPendingFuntors_ and the eventfd counter. Threads in pushed
      or quitting have made the first half of queueInLoop or quit and owe the eventfd write; the
      loop thread owes one while owing. history is every functor in the order of the lock, executed
      every functor begun, swapped the functors taken by the latest swap, after the first ran of all. */
  datatype Proto = Proto(
    pc: LoopPc,
    queue: LoopState<Task>,
    quit: bool,
    batch: seq<Task>,
    owing: bool,
    pushed: set<Thread>,
    quitting: set<Thread>,
    history: seq<Task>,
    executed: seq<Task>,
    swapped: seq<Task>,
    ran: nat,
    polls: nat)

  datatype Label =
    | ForeignPush(thread: Thread, task: Task)
    | ForeignWake(thread: Thread)
    | ForeignQuit(thread: Thread)
    | ForeignQuitWake(thread: Thread)
    | Check                          // while (!quit_)
    | PollReturns(wakeupActive: bool)
    | ReadWakeup                     // handleRead
    | EventPush(task: Task)          // queueInLoop while events are handled
    | LoopQuit                       // quit from the loop thread
    | EventsDone                     // callingPendingFuntors_ = true
    | Swap
    | RunNext
    | BatchPush(task: Task)          // queueInLoop from a running functor, up to the push
    | BatchWake                      // and its eventfd write
    | BatchDone                      // callingPendingFuntors_ = false

  function Add(s: Proto, task: Task): Proto {
    s.(queue := Push(s.queue, task), history := s.history + [task])
  }

  function Write(s: Proto): Proto {
    s.(queue := Wakeup(s.queue))
  }

  predicate Enabled(s: Proto, l: Label) {
    match l
    case ForeignPush(t, _) => t !in s.pushed && t !in s.quitting
    case ForeignWake(t) => t in s.pushed
    case ForeignQuit(t) => t !in s.pushed && t !in s.quitting
    case ForeignQuitWake(t) => t in s.quitting
    case Check => s.pc == AtCheck
    case PollReturns(w) => s.pc == AtPoll && (w ==> 0 < s.queue.counter)
    case ReadWakeup => s.pc == AtEvents(true)
    case EventPush(_) => s.pc.AtEvents?
    case LoopQuit => s.pc.AtEvents? || (s.pc == AtBatch && !s.owing && |s.batch| < |s.swapped|)
    case EventsDone => s.pc == AtEvents(false)
    case Swap => s.pc == AtSwap
    case RunNext => s.pc == AtBatch && !s.owing && s.batch != []
    case BatchPush(_) => s.pc == AtBatch && !s.owing && |s.batch| < |s.swapped|
    case BatchWake => s.owing
    case BatchDone => s.pc == AtBatch && !s.owing && s.batch == []
  }

  function Next(s: Proto, l: Label): Proto
    requires Enabled(s, l)
  {
    match l
    case ForeignPush(t, task) => Add(s, task).(pushed := s.pushed + {t})
    case ForeignWake(t) => Write(s).(pushed := s.pushed - {t})
    case ForeignQuit(t) => s.(quit := true, quitting := s.quitting + {t})
    case ForeignQuitWake(t) => Write(s).(quitting := s.quitting - {t})
    case Check => if s.quit then s.(pc := Exited) else s.(pc := AtPoll, polls := s.polls + 1)
    case PollReturns(w) => s.(pc := AtEvents(w))
    case ReadWakeup => s.(pc := AtEvents(false), queue := s.queue.(counter := 0))
    case EventPush(task) => Add(s, task)
    case LoopQuit => s.(quit := true)
    case EventsDone => s.(pc := AtSwap, queue := s.queue.(calling := true))
    case Swap =>
      s.(pc := AtBatch, batch := s.queue.pending, swapped := s.queue.pending, ran := |s.executed|,
         queue := s.queue.(pending := []))
    case RunNext => s.(batch := s.batch[1..], executed := s.executed + [s.batch[0]])
    case BatchPush(task) => Add(s, task).(owing := true)
    case BatchWake => Write(s).(owing := false)
    case BatchDone => s.(pc := AtCheck, queue := s.queue.(calling := false))
  }

  /** The states a run of labels leads through. */
  ghost predicate Reaches(s: Proto, labels: seq<Label>, t: Proto)
    decreases |labels|
  {
    if labels == [] then t == s
    else Enabled(s, labels[0]) && Reaches(Next(s, labels[0]), labels[1..], t)
  }

  ghost predicate Reachable(s: Proto, t: Proto) {
    exists labels :: Reaches(s, labels, t)
  }

  /** loop() has just reset quit; the queue and the counter may hold anything, other threads may be
      anywhere. */
  ghost predicate Start(s: Proto) {
    && s.pc == AtCheck && !s.quit && !s.owing && s.batch == [] && s.executed == []
    && !s.queue.calling && s.history == s.queue.pending && s.swapped == [] && s.ran == 0 && s.polls == 0
  }

  // ---- No lost wake-up ----

  /** In epoll_wait with queued work, a zero counter, and nobody about to write it. */
  ghost predicate Asleep(s: Proto) {
    s.pc == AtPoll && s.queue.pending != [] && s.queue.counter == 0 && s.pushed == {}
  }

  /** In epoll_wait though told to quit, a zero counter, and nobody about to write it. */
  ghost predicate Deaf(s: Proto) {
    s.pc == AtPoll && s.quit && s.queue.counter == 0 && s.quitting == {}
  }

  /** Queued work is covered: the counter is positive, or a write is owed. */
  ghost predicate Covered(s: Proto) {
    s.queue.pending == [] || 0 < s.queue.counter || s.pushed != {} || s.owing
  }

  /** What every start has: the loop thread is where its flags say, a quit will be heard, and
      functors are neither lost, repeated nor reordered. */
  ghost predicate Inv(s: Proto) {
    && (s.queue.calling <==> s.pc == AtSwap || s.pc == AtBatch)
    && (s.owing ==> s.pc == AtBatch)
    && (s.pc == AtPoll && s.quit ==> 0 < s.queue.counter || s.quitting != {})
    && s.executed + s.batch + s.queue.pending == s.history
    && (s.pc != AtBatch ==> s.batch == [])
    && s.ran <= |s.executed| && s.executed[s.ran..] + s.batch == s.swapped
  }

  /** Where the loop may go to epoll_wait without another look at the queue, queued work is
      covered. */
  ghost predicate Awake(s: Proto) {
    s.pc == AtCheck || s.pc == AtPoll || s.pc == AtBatch ==> Covered(s)
  }

  lemma StepKeepsInv(s: Proto, l: Label)
    requires Inv(s) && Enabled(s, l)
    ensures Inv(Next(s, l)) && (Awake(s) ==> Awake(Next(s, l)))
  {
    match l
    case ForeignPush(t, task) => assert t in Next(s, l).pushed;
    case ForeignQuit(t) => assert t in Next(s, l).quitting;
    case RunNext =>
      var e := s.executed + [s.batch[0]];
      assert e + s.batch[1..] == s.executed + s.batch;
      assert e[s.ran..] == s.executed[s.ran..] + [s.batch[0]];
    case _ =>
  }

  lemma {:induction false} RunKeepsInv(s: Proto, labels: seq<Label>, t: Proto)
    requires Inv(s) && Reaches(s, labels, t)
    ensures Inv(t) && (Awake(s) ==> Awake(t))
    decreases |labels|
  {
    if labels != [] {
      StepKeepsInv(s, labels[0]);
      RunKeepsInv(Next(s, labels[0]), labels[1..], t);
    }
  }

  /** From a start with queued work covered, no interleaving whatever puts the loop to sleep on
      queued work; from any other start one step does. The only such starts are those where the
      loop's own thread queued work before it entered loop(), since that writes no wake-up. */
  lemma NoLostWakeupIff(s: Proto)
    requires Start(s)
    ensures (forall t :: Reachable(s, t) ==> !Asleep(t)) <==> Covered(s)
  {
    if Covered(s) {
      forall t | Reachable(s, t) ensures !Asleep(t) {
        var labels :| Reaches(s, labels, t);
        RunKeepsInv(s, labels, t);
      }
    } else {
      var labels, t := [Check], Next(s, Check);
      assert labels[1..] == [];
      assert Reaches(t, labels[1..], t);
      assert Reaches(s, labels, t);
      assert Reachable(s, t) && Asleep(t);
    }
  }

  /** A quit, from any thread, never finds the loop in epoll_wait with nobody to wake it. */
  lemma QuitIsHeard(s: Proto, t: Proto)
    requires Start(s) && Reachable(s, t)
    ensures !Deaf(t)
  {
    var labels :| Reaches(s, labels, t);
    RunKeepsInv(s, labels, t);
  }

  /** Once quit is set the loop never polls again: it finishes the iteration it is in. */
  lemma {:induction false} QuitEndsPolling(s: Proto, labels: seq<Label>, t: Proto)
    requires s.quit && Reaches(s, labels, t)
    ensures t.quit && t.polls == s.polls
    decreases |labels|
  {
    if labels != [] {
      QuitEndsPolling(Next(s, labels[0]), labels[1..], t);
    }
  }

  predicate IsQuit(l: Label) {
    l.ForeignQuit? || l.LoopQuit?
  }

  /** A quit is never forgotten: after any run quit is set exactly if it was before or some thread
      has called quit on the way. */
  lemma {:induction false} QuitIsSetIff(s: Proto, labels: seq<Label>, t: Proto)
    requires Reaches(s, labels, t)
    ensures t.quit <==> s.quit || exists i :: 0 <= i < |labels| && IsQuit(labels[i])
    decreases |labels|
  {
    if labels != [] {
      QuitIsSetIff(Next(s, labels[0]), labels[1..], t);
      assert forall i :: 0 < i < |labels| ==> labels[i] == labels[1..][i - 1];
      assert forall i :: 0 <= i < |labels[1..]| ==> labels[1..][i] == labels[i + 1];
    }
  }

  /** Another thread's call of quit is these two steps. */
  lemma ForeignQuitIsFlagThenWake(s: Proto, t: Thread)
    requires t !in s.pushed && t !in s.quitting
    ensures Enabled(s, ForeignQuit(t)) && Enabled(Next(s, ForeignQuit(t)), ForeignQuitWake(t))
    ensures var called := Next(Next(s, ForeignQuit(t)), ForeignQuitWake(t));
            called == s.(quit := true, queue := Wakeup(s.queue)) && 0 < called.queue.counter
  {
    assert s.quitting + {t} - {t} == s.quitting;
  }

  /** The loop thread's own next step. */
  function OwnStep(s: Proto): Label {
    match s.pc
    case AtPoll => PollReturns(true)
    case AtEvents(wakeupActive) => if wakeupActive then ReadWakeup else EventsDone
    case AtSwap => Swap
    case AtBatch => if s.owing then BatchWake else if s.batch != [] then RunNext else BatchDone
    case _ => Check
  }

  ghost predicate OwnRun(s: Proto, labels: seq<Label>, t: Proto)
    decreases |labels|
  {
    if labels == [] then t == s
    else labels[0] == OwnStep(s) && Enabled(s, labels[0]) && OwnRun(Next(s, labels[0]), labels[1..], t)
  }

  lemma {:induction false} OwnRunReaches(s: Proto, labels: seq<Label>, t: Proto)
    requires OwnRun(s, labels, t)
    ensures Reaches(s, labels, t)
    decreases |labels|
  {
    if labels != [] {
      OwnRunReaches(Next(s, labels[0]), labels[1..], t);
    }
  }

  function PcRank(pc: LoopPc): nat {
    match pc
    case Exited => 0 case AtCheck => 1 case AtBatch => 2 case AtSwap => 3
    case AtEvents(wakeupActive) => if wakeupActive then 5 else 4
    case AtPoll => 6
  }

  /** With quit set the loop thread's own steps lead out of loop() without another poll; out of
      the present one as soon as the counter is positive. */
  lemma {:induction false} QuitExits(s: Proto)
    requires Inv(s) && s.quit && (s.pc == AtPoll ==> 0 < s.queue.counter)
    ensures exists labels, t :: OwnRun(s, labels, t) && Reaches(s, labels, t) && t.pc == Exited && t.polls == s.polls
    decreases PcRank(s.pc), |s.batch|, s.owing
  {
    if s.pc == Exited {
      assert OwnRun(s, [], s) && Reaches(s, [], s);
    } else {
      var l := OwnStep(s);
      StepKeepsInv(s, l);
      QuitExits(Next(s, l));
      var labels, t :| OwnRun(Next(s, l), labels, t) && Reaches(Next(s, l), labels, t)
                       && t.pc == Exited && t.polls == Next(s, l).polls;
      assert ([l] + labels)[1..] == labels;
      assert OwnRun(s, [l] + labels, t) && Reaches(s, [l] + labels, t);
    }
  }

  /** The loop polls again exactly while it has not been told to quit. epoll_wait may always return
      without the wake-up channel, for another descriptor or at its timeout, and with it exactly
      while the counter is positive; and the loop's own thread may quit whenever code of the user's
      runs on it. */
  lemma PollAndQuitAreOpen(s: Proto)
    ensures s.pc == AtCheck ==>
              && Enabled(s, Check)
              && Next(s, Check) == if s.quit then s.(pc := Exited) else s.(pc := AtPoll, polls := s.polls + 1)
    ensures s.pc == AtPoll ==>
              Enabled(s, PollReturns(false)) && (Enabled(s, PollReturns(true)) <==> 0 < s.queue.counter)
    ensures s.pc.AtEvents? || (s.pc == AtBatch && !s.owing && |s.batch| < |s.swapped|) ==>
              Enabled(s, LoopQuit) && Next(s, LoopQuit) == s.(quit := true)
  {
  }

  /** Whatever is queued and whatever the counter, loop() can start. */
  lemma AnyQueueStarts(pending: seq<Task>, counter: nat, pushed: set<Thread>, quitting: set<Thread>)
    ensures exists s :: Start(s) && s.queue == LoopState(pending, false, counter) && s.pushed == pushed && s.quitting == quitting
  {
    var s := Proto(AtCheck, LoopState(pending, false, counter), false, [], false, pushed, quitting, pending, [], [], 0, 0);
    assert Start(s);
  }

  // ---- Exactly once, in order, in bounded rounds ----

  /** Another thread's call of queueInLoop is these two steps, in this order. */
  lemma ForeignQueueIsPushThenWake(s: Proto, t: Thread, task: Task)
    requires t !in s.pushed && t !in s.quitting
    ensures Enabled(s, ForeignPush(t, task)) && Enabled(Next(s, ForeignPush(t, task)), ForeignWake(t))
    ensures Next(Next(s, ForeignPush(t, task)), ForeignWake(t))
            == s.(queue := Queue(s.queue, task, false), history := s.history + [task])
  {
    assert s.pushed + {t} - {t} == s.pushed;
  }

  /** The loop thread's call is one step while events are handled and two while functors run. */
  lemma LoopQueueIsPushThenWake(s: Proto, task: Task)
    requires Inv(s)
    ensures s.pc.AtEvents? ==>
              && Enabled(s, EventPush(task))
              && Next(s, EventPush(task)) == s.(queue := Queue(s.queue, task, true), history := s.history + [task])
    ensures s.pc == AtBatch && !s.owing && |s.batch| < |s.swapped| ==>
              && Enabled(s, BatchPush(task)) && Enabled(Next(s, BatchPush(task)), BatchWake)
              && Next(Next(s, BatchPush(task)), BatchWake)
                 == s.(queue := Queue(s.queue, task, true), history := s.history + [task])
  {
  }

  function Pushed(l: Label): seq<Task> {
    match l
    case ForeignPush(_, task) => [task]
    case EventPush(task) => [task]
    case BatchPush(task) => [task]
    case _ => []
  }

  /** The tasks the steps of a run push, in order. */
  function PushedBy(labels: seq<Label>): seq<Task> {
    if labels == [] then [] else Pushed(labels[0]) + PushedBy(labels[1..])
  }

  lemma StepPushes(s: Proto, l: Label)
    requires Enabled(s, l)
    ensures Next(s, l).history == s.history + Pushed(l)
  {
  }

  lemma {:induction false} HistoryIsWhatWasPushed(s: Proto, labels: seq<Label>, t: Proto)
    requires Reaches(s, labels, t)
    ensures t.history == s.history + PushedBy(labels)
    decreases |labels|
  {
    if labels != [] {
      StepPushes(s, labels[0]);
      HistoryIsWhatWasPushed(Next(s, labels[0]), labels[1..], t);
    }
  }

  /** Over every run, what has been executed, is in the batch and is queued is what was queued at
      the start and what the run has pushed, each once and in order. */
  lemma PushedTasksOnceInOrder(s: Proto, labels: seq<Label>, t: Proto)
    requires Start(s) && Reaches(s, labels, t)
    ensures t.executed + t.batch + t.queue.pending == s.queue.pending + PushedBy(labels)
  {
    RunKeepsInv(s, labels, t);
    HistoryIsWhatWasPushed(s, labels, t);
  }

  /** At every moment of every run the functors executed, the rest of the batch and the queue are
      together the functors pushed, each once and in the order of the lock. */
  lemma ExactlyOnceInOrder(s: Proto, t: Proto)
    requires Start(s) && Reachable(s, t)
    ensures t.executed + t.batch + t.queue.pending == t.history
  {
    var labels :| Reaches(s, labels, t);
    RunKeepsInv(s, labels, t);
  }

  /** A round that ends has executed the functors of its swap, no more and no fewer, whatever they
      and other threads pushed meanwhile. */
  lemma RoundRunsTheSwap(s: Proto, t: Proto)
    requires Start(s) && Reachable(s, t) && Enabled(t, BatchDone)
    ensures t.ran <= |t.executed| && t.executed[t.ran..] == t.swapped
  {
    var labels :| Reaches(s, labels, t);
    RunKeepsInv(s, labels, t);
  }

  /** How many functors the loop thread runs on the way. */
  function Runs(labels: seq<Label>): nat {
    if labels == [] then 0 else (if labels[0] == RunNext then 1 else 0) + Runs(labels[1..])
  }

  /** Within a round each functor run is the next of its batch, no push reaches the batch, and no
      more run than it had; so a round ends. */
  lemma {:induction false} BatchOnlyShrinks(s: Proto, labels: seq<Label>, t: Proto)
    requires Inv(s) && s.pc == AtBatch && Reaches(s, labels, t) && BatchDone !in labels
    ensures t.pc == AtBatch && t.swapped == s.swapped && t.ran == s.ran
    ensures Runs(labels) <= |s.batch| && t.batch == s.batch[Runs(labels)..]
    ensures t.executed == s.executed + s.batch[..Runs(labels)]
    decreases |labels|
  {
    if labels != [] {
      StepKeepsInv(s, labels[0]);
      assert labels[0] in labels && forall l <- labels[1..] :: l in labels;
      BatchOnlyShrinks(Next(s, labels[0]), labels[1..], t);
      BatchStep(s, labels[0], Runs(labels[1..]));
    }
  }

  /** One step within a round, with n more functors to be run after it. */
  lemma BatchStep(s: Proto, l: Label, n: nat)
    requires s.pc == AtBatch && Enabled(s, l) && l != BatchDone && n <= |Next(s, l).batch|
    ensures var next, k := Next(s, l), if l == RunNext then n + 1 else n;
            && k <= |s.batch| && next.batch[n..] == s.batch[k..]
            && next.executed + next.batch[..n] == s.executed + s.batch[..k]
  {
    if l == RunNext {
      assert s.batch[..n + 1] == [s.batch[0]] + s.batch[1..][..n];
    }
  }

  // ---- Work gets done ----

  function Rounds(n: nat): seq<Label> {
    if n == 0 then [] else [RunNext] + Rounds(n - 1)
  }

  const TO_THE_SWAP: seq<Label> := [PollReturns(true), ReadWakeup, EventsDone, Swap]

  /** From epoll_wait, the loop's own steps lead through the swap to the end of the round and run
      all that is queued by then; with nothing more queued the counter is back at zero. */
  lemma QueuedWorkRuns(s: Proto)
    requires Inv(s) && s.pc == AtPoll && 0 < s.queue.counter
    ensures exists t ::
              && Reaches(s, TO_THE_SWAP + (Rounds(|s.queue.pending|) + [BatchDone]), t)
              && t.pc == AtCheck && t.executed == s.executed + s.queue.pending
              && t.queue.pending == [] && t.queue.counter == 0
  {
    var s4 := Next(Next(Next(Next(s, PollReturns(true)), ReadWakeup), EventsDone), Swap);
    BatchRuns(s4);
    var t :| Reaches(s4, Rounds(|s4.batch|) + [BatchDone], t) && t.pc == AtCheck
             && t.executed == s4.executed + s4.batch && t.queue == s4.queue.(calling := false);
    ToTheSwap(s, Rounds(|s.queue.pending|) + [BatchDone], t);
  }

  lemma ToTheSwap(s: Proto, rest: seq<Label>, t: Proto)
    requires s.pc == AtPoll && 0 < s.queue.counter
    requires Reaches(Next(Next(Next(Next(s, PollReturns(true)), ReadWakeup), EventsDone), Swap), rest, t)
    ensures Reaches(s, TO_THE_SWAP + rest, t)
  {
    var s1 := Next(s, PollReturns(true));
    var s2 := Next(s1, ReadWakeup);
    Before(Next(s2, EventsDone), Swap, rest, t);
    Before(s2, EventsDone, [Swap] + rest, t);
    Before(s1, ReadWakeup, [EventsDone] + ([Swap] + rest), t);
    Before(s, PollReturns(true), [ReadWakeup] + ([EventsDone] + ([Swap] + rest)), t);
    OneByOne(rest);
  }

  lemma OneByOne(rest: seq<Label>)
    ensures TO_THE_SWAP + rest == [PollReturns(true)] + ([ReadWakeup] + ([EventsDone] + ([Swap] + rest)))
  {
  }

  lemma Before(s: Proto, l: Label, rest: seq<Label>, t: Proto)
    requires Enabled(s, l) && Reaches(Next(s, l), rest, t)
    ensures Reaches(s, [l] + rest, t)
  {
    assert ([l] + rest)[1..] == rest;
  }

  lemma {:induction false} BatchRuns(s: Proto)
    requires s.pc == AtBatch && !s.owing
    ensures exists t :: Reaches(s, Rounds(|s.batch|) + [BatchDone], t) && t.pc == AtCheck
                        && t.executed == s.executed + s.batch && t.queue == s.queue.(calling := false)
    decreases |s.batch|
  {
    if s.batch == [] {
      var t := Next(s, BatchDone);
      assert Reaches(t, [], t);
      Before(s, BatchDone, [], t);
      assert Rounds(0) + [BatchDone] == [BatchDone] + [];
      assert t.executed == s.executed + s.batch;
    } else {
      var s1 := Next(s, RunNext);
      BatchRuns(s1);
      var t :| Reaches(s1, Rounds(|s1.batch|) + [BatchDone], t) && t.pc == AtCheck
               && t.executed == s1.executed + s1.batch && t.queue == s1.queue.(calling := false);
      Before(s, RunNext, Rounds(|s1.batch|) + [BatchDone], t);
      assert Rounds(|s.batch|) + [BatchDone] == [RunNext] + (Rounds(|s1.batch|) + [BatchDone]);
      assert t.executed == s.executed + s.batch;
    }
  }
}
