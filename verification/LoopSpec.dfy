/** The loop's task queue and its wake-up counter, as functions on values. */
module LoopSpec {

  /** What is queued for later: the two user notifications a connection queues, the end of a
      connection, and a task of the user's own. C names a connection. */
  datatype Functor<C> =
    | WriteComplete(conn: C)
    | HighWaterMark(conn: C, size: nat)
    | ConnectDestroyed(conn: C)
    | UserTask(task: nat)

  /** pendingFunctors_, callingPendingFuntors_ and the eventfd counter. */
  datatype LoopState<F> = LoopState(pending: seq<F>, calling: bool, counter: nat)

  /** A write that would take the counter past this value fails and leaves it as it is. */
  const EVENTFD_MAX: nat := 0xffff_ffff_ffff_fffe

  function Bump(counter: nat): (r: nat)
    ensures 0 < r && counter <= r
  {
    if counter < EVENTFD_MAX then counter + 1 else counter
  }

  function Push<F>(l: LoopState<F>, f: F): LoopState<F> {
    l.(pending := l.pending + [f])
  }

  function Wakeup<F>(l: LoopState<F>): LoopState<F> {
    l.(counter := Bump(l.counter))
  }

  /** queueInLoop: the loop's own thread needs no wake-up unless it is already past the swap. */
  function Queue<F>(l: LoopState<F>, f: F, inLoopThread: bool): LoopState<F> {
    if !inLoopThread || l.calling then Wakeup(Push(l, f)) else Push(l, f)
  }

  /** A task goes to the end of the queue, alone. Queued by another thread, or while functors run,
      it leaves a wake-up behind; queued by the loop's own thread at any other time it leaves the
      counter alone. */
  lemma QueueWakes<F>(l: LoopState<F>, f: F, inLoopThread: bool)
    ensures var q := Queue(l, f, inLoopThread);
            && q.pending == l.pending + [f] && q.calling == l.calling
            && (!inLoopThread || l.calling ==> 0 < q.counter && l.counter <= q.counter)
            && (inLoopThread && !l.calling ==> q.counter == l.counter)
  {
  }

  /** The loop thread queues several tasks one after the other. */
  function QueueAll<F>(l: LoopState<F>, fs: seq<F>): LoopState<F> {
    if fs == [] then l else Queue(QueueAll(l, fs[..|fs| - 1]), fs[|fs| - 1], true)
  }

  lemma {:induction false} QueueAllPending<F>(l: LoopState<F>, fs: seq<F>)
    ensures QueueAll(l, fs).pending == l.pending + fs && QueueAll(l, fs).calling == l.calling
    ensures l.calling && fs != [] ==> 0 < QueueAll(l, fs).counter
    ensures !l.calling || fs == [] ==> QueueAll(l, fs).counter == l.counter
  {
    if fs != [] {
      QueueAllPending(l, fs[..|fs| - 1]);
      assert fs == fs[..|fs| - 1] + [fs[|fs| - 1]];
    }
  }

  /** Everything a batch queues while it runs: task i queues queued(i). */
  function QueuedBy<F>(queued: nat -> seq<F>, n: nat): seq<F> {
    if n == 0 then [] else QueuedBy(queued, n - 1) + queued(n - 1)
  }
}
