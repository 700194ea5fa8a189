/** What a connection promises, said of its trace alone: which observation may come when
    (Legal), which must come next (Prompt), and the consequences a user relies on. Nothing here
    mentions the code. */
module TraceSpec {
  import opened Kernel
  import opened LoopSpec
  import opened ConnSpec

  // ---- What a trace says happened ----

  function NextState(s: State, o: Obs): State {
    match o
    case Up => Connected
    case Shut => Disconnecting
    case Down => Disconnected
    case _ => s
  }

  /** The bytes of all messages taken, in order. */
  function Taken(t: Trace): seq<Byte> {
    match t
    case Start => []
    case Then(before, Sent(message, _)) => Taken(before) + message
    case Then(before, _) => Taken(before)
  }

  /** The bytes that reached the kernel, in order. */
  function Written(t: Trace): seq<Byte> {
    match t
    case Start => []
    case Then(before, Sent(message, now)) => Written(before) + message[..Min(now, |message|)]
    case Then(before, Drained(bytes)) => Written(before) + bytes
    case Then(before, _) => Written(before)
  }

  /** The bytes read from the peer, in order. */
  function Received(t: Trace): seq<Byte> {
    match t
    case Start => []
    case Then(before, Arrived(bytes)) => Received(before) + bytes
    case Then(before, _) => Received(before)
  }

  /** The bytes the user took, in order. */
  function Used(t: Trace): seq<Byte> {
    match t
    case Start => []
    case Then(before, Consumed(bytes)) => Used(before) + bytes
    case Then(before, _) => Used(before)
  }

  /** The functors the connection queued with its loop, in order. */
  function Queued<C>(self: C, t: Trace): seq<Functor<C>> {
    match t
    case Start => []
    case Then(before, Completed) => Queued(self, before) + [WriteComplete(self)]
    case Then(before, HighWater(size)) => Queued(self, before) + [HighWaterMark(self, size)]
    case Then(before, Closed) => Queued(self, before) + [ConnectDestroyed(self)]
    case Then(before, _) => Queued(self, before)
  }

  /** How many bytes are taken but not written; negative if more were written than taken. */
  function Backlog(t: Trace): int {
    |Taken(t)| - |Written(t)|
  }

  function StateOf(t: Trace): State {
    match t case Start => Connecting case Then(before, last) => NextState(StateOf(before), last)
  }

  function MarkOf(t: Trace): Option<nat> {
    match t
    case Start => None
    case Then(before, last) => if last.Marked? then last.mark else MarkOf(before)
  }

  /** How often each turn of a connection's life has come. */
  datatype Tally = Tally(ups: nat, fins: nat, downs: nat, closes: nat, destroys: nat)

  function TallyOf(t: Trace): Tally {
    match t
    case Start => Tally(0, 0, 0, 0, 0)
    case Then(before, last) =>
      var n := TallyOf(before);
      match last
      case Up => n.(ups := n.ups + 1)
      case Fin => n.(fins := n.fins + 1)
      case Down => n.(downs := n.downs + 1)
      case Closed => n.(closes := n.closes + 1)
      case Destroyed => n.(destroys := n.destroys + 1)
      case _ => n
  }

  function Rank(s: State): nat {
    match s case Connecting => 0 case Connected => 1 case Disconnecting => 2 case Disconnected => 3
  }

  ghost predicate Prefix(p: Trace, t: Trace) {
    p == t || (t.Then? && Prefix(p, t.before))
  }

  // ---- What may come when ----

  /** The message o takes the backlog from below the mark to at or above it. */
  predicate Crosses(t: Trace, o: Obs) {
    o.Sent? && MarkOf(t).Some? && Backlog(t) < MarkOf(t).value <= Backlog(Then(t, o))
  }

  /** With o written, nothing is left to write. */
  predicate Empties(t: Trace, o: Obs) {
    (o.Drained? || (o.Sent? && o.message != [])) && Backlog(Then(t, o)) == 0
  }

  /** May o follow the trace t? */
  ghost predicate Allowed(t: Trace, o: Obs) {
    match o
    case Up => StateOf(t) == Connecting
    case Sent(message, now) =>
      StateOf(t) == Connected && now <= |message| && (0 < Backlog(t) ==> now == 0)
    case Dropped(_) => StateOf(t) == Connected && Backlog(t) == 0
    case Drained(bytes) =>
      && (StateOf(t) == Connected || StateOf(t) == Disconnecting)
      && bytes != [] && Written(t) + bytes <= Taken(t)
    case Completed => t.Then? && (t.last.Sent? || t.last.Drained?) && Backlog(t) == 0
    case HighWater(size) => t.Then? && Crosses(t.before, t.last) && size == Backlog(t)
    case Marked(_) => true
    case Arrived(_) => StateOf(t) != Connecting
    case Consumed(bytes) => Used(t) + bytes <= Received(t)
    case Shut => StateOf(t) == Connected
    case Fin => StateOf(t) == Disconnecting && Backlog(t) == 0 && TallyOf(t).fins == 0
    case Down => StateOf(t) != Connecting
    case Closed => StateOf(t) == Disconnected
    case Destroyed => StateOf(t) == Disconnecting || StateOf(t) == Disconnected
  }

  ghost predicate Legal(t: Trace) {
    t.Then? ==> Legal(t.before) && Allowed(t.before, t.last)
  }

  /** Every notification that was due, up to the last observation but one, came at once. */
  ghost predicate Paid(t: Trace, completes: bool) {
    t.Then? ==>
      && Paid(t.before, completes)
      && (Due(t.before, completes) ==> Pays(t.before, t.last))
  }

  /** The last observation calls for a notification. */
  ghost predicate Due(t: Trace, completes: bool) {
    t.Then? && (Crosses(t.before, t.last) || (completes && Empties(t.before, t.last)))
  }

  ghost predicate Pays(t: Trace, o: Obs)
    requires t.Then?
  {
    if Crosses(t.before, t.last) then o.HighWater? else o == Completed
  }

  ghost predicate Prompt(t: Trace, completes: bool) {
    Paid(t, completes) && !Due(t, completes)
  }

  lemma PromptOne(t: Trace, o: Obs, completes: bool)
    requires Prompt(t, completes) && !Crosses(t, o) && !(completes && Empties(t, o))
    ensures Prompt(Then(t, o), completes)
  {
  }

  /** An observation together with the notification it calls for. */
  lemma PromptPair(t: Trace, o: Obs, note: Obs, completes: bool)
    requires Prompt(t, completes) && (note == Completed || note.HighWater?)
    requires Crosses(t, o) <==> note.HighWater?
    ensures Prompt(Then(Then(t, o), note), completes)
  {
    assert Paid(Then(t, o), completes);
    assert Due(Then(t, o), completes) ==> Pays(Then(t, o), note);
  }

  // ---- Consequences ----

  lemma {:induction false} PrefixIsLegal(p: Trace, t: Trace)
    requires Legal(t) && Prefix(p, t)
    ensures Legal(p)
  {
    if p != t {
      PrefixIsLegal(p, t.before);
    }
  }

  /** The bytes written are the first bytes of what was taken, and nothing else. */
  lemma {:induction false} WrittenIsPrefix(t: Trace)
    requires Legal(t)
    ensures Written(t) <= Taken(t)
  {
    if t.Then? {
      WrittenIsPrefix(t.before);
      if t.last.Sent? && Backlog(t.before) == 0 {
        assert Written(t.before) == Taken(t.before);
      }
    }
  }

  /** After the write side is shut down everything taken has been written, and nothing more is
      taken, written or shut down. */
  lemma {:induction false} FinIsLast(p: Trace, t: Trace)
    requires Legal(t) && Prefix(Then(p, Fin), t)
    ensures Written(t) == Taken(t) == Written(p) == Taken(p)
    ensures StateOf(p) == Disconnecting && StateOf(t) in {Disconnecting, Disconnected}
    ensures TallyOf(t).fins == 1
    ensures t != Then(p, Fin) ==> !t.last.Sent? && !t.last.Drained? && t.last != Fin
  {
    if t == Then(p, Fin) {
      WrittenIsPrefix(p);
    } else {
      FinIsLast(p, t.before);
    }
  }

  lemma {:induction false} AtMostOneFin(t: Trace)
    requires Legal(t)
    ensures TallyOf(t).fins <= 1
  {
    if t.Then? {
      AtMostOneFin(t.before);
    }
  }

  /** The state only moves forward. */
  lemma {:induction false} StateMovesForward(p: Trace, t: Trace)
    requires Legal(t) && Prefix(p, t)
    ensures Rank(StateOf(p)) <= Rank(StateOf(t))
  {
    if p != t {
      StateMovesForward(p, t.before);
    }
  }

  /** Until the connection is up nothing is taken, written or read. */
  lemma {:induction false} QuietBefore(t: Trace)
    requires Legal(t) && StateOf(t) == Connecting
    ensures t.Then? ==> t.last.Marked? || t.last == Consumed([])
    ensures Taken(t) == [] && Written(t) == [] && Received(t) == [] && TallyOf(t).ups == 0
  {
    if t.Then? {
      QuietBefore(t.before);
    }
  }

  /** A connection is disconnected exactly if its user was told that it went down. */
  lemma {:induction false} DisconnectedIffTold(t: Trace)
    requires Legal(t)
    ensures StateOf(t) == Disconnected <==> 0 < TallyOf(t).downs
  {
    if t.Then? {
      DisconnectedIffTold(t.before);
    }
  }

  /** The connection comes up exactly once. */
  lemma {:induction false} UpExactlyOnce(t: Trace)
    requires Legal(t) && StateOf(t) != Connecting
    ensures TallyOf(t).ups == 1
  {
    if StateOf(t.before) == Connecting {
      QuietBefore(t.before);
    } else {
      UpExactlyOnce(t.before);
    }
  }

  /** Every write-complete notification is true when it is queued. */
  lemma {:induction false} CompletionIsTruthful(p: Trace, t: Trace)
    requires Legal(t) && Prefix(Then(p, Completed), t)
    ensures Written(p) == Taken(p)
  {
    PrefixIsLegal(Then(p, Completed), t);
    WrittenIsPrefix(p);
  }

  /** Every write-complete notification the user waits for comes: if the callback is set, the
      observation that leaves nothing to write is followed by one at once. */
  lemma {:induction false} CompletionFollows(p: Trace, o: Obs, t: Trace)
    requires Legal(t) && Paid(t, true) && Empties(p, o)
    requires Prefix(Then(p, o), t) && t != Then(p, o)
    ensures Prefix(Then(Then(p, o), Completed), t)
  {
    if t.before == Then(p, o) {
      WrittenIsPrefix(p);
      assert !Crosses(p, o);
    } else {
      CompletionFollows(p, o, t.before);
    }
  }

  lemma {:induction false} QueuedGrows<C>(self: C, p: Trace, t: Trace)
    requires Prefix(p, t)
    ensures Queued(self, p) <= Queued(self, t)
  {
    if p != t {
      QueuedGrows(self, p, t.before);
    }
  }

  /** Every write-complete functor queued was queued at a moment when everything taken had been
      written. */
  lemma {:induction false} QueuedCompletionIsTruthful<C>(self: C, t: Trace, i: nat)
    requires Legal(t) && i < |Queued(self, t)| && Queued(self, t)[i] == WriteComplete(self)
    ensures exists p :: Prefix(Then(p, Completed), t) && |Queued(self, p)| == i && Written(p) == Taken(p)
  {
    if i < |Queued(self, t.before)| {
      QueuedCompletionIsTruthful(self, t.before, i);
      var p :| Prefix(Then(p, Completed), t.before) && |Queued(self, p)| == i && Written(p) == Taken(p);
      assert Prefix(Then(p, Completed), t);
    } else {
      assert Prefix(Then(t.before, Completed), t);
      CompletionIsTruthful(t.before, t);
    }
  }

  /** If the callback is set, the observation that leaves nothing to write has one write-complete
      functor queued, and that before anything else is. */
  lemma EmptyingQueuesCompletion<C>(self: C, p: Trace, o: Obs, t: Trace)
    requires Legal(t) && Prompt(t, true) && Empties(p, o) && Prefix(Then(p, o), t)
    ensures Queued(self, p) + [WriteComplete(self)] <= Queued(self, t)
  {
    if t == Then(p, o) {
      assert false;
    } else {
      CompletionFollows(p, o, t);
      QueuedGrows(self, Then(Then(p, o), Completed), t);
    }
  }

  /** A high-water notification follows exactly the messages that take the backlog from below the
      mark to at or above it, and carries the backlog that message left. */
  lemma {:induction false} HighWaterIsCrossing(p: Trace, o: Obs, n: Obs, completes: bool, t: Trace)
    requires Legal(t) && Paid(t, completes) && Prefix(Then(Then(p, o), n), t)
    ensures n.HighWater? <==> Crosses(p, o)
    ensures n.HighWater? ==> n.size == Backlog(Then(p, o))
  {
    if t != Then(Then(p, o), n) {
      HighWaterIsCrossing(p, o, n, completes, t.before);
    }
  }

  function Crossings(t: Trace): nat {
    match t
    case Start => 0
    case Then(before, last) => Crossings(before) + if Crosses(before, last) then 1 else 0
  }

  function HighWaters(t: Trace): nat {
    match t case Start => 0 case Then(before, last) => HighWaters(before) + if last.HighWater? then 1 else 0
  }

  lemma {:induction false} CountUpTo(t: Trace, completes: bool)
    requires Legal(t) && Paid(t, completes)
    ensures HighWaters(t) + (if t.Then? && Crosses(t.before, t.last) then 1 else 0) == Crossings(t)
  {
    if t.Then? {
      CountUpTo(t.before, completes);
    }
  }

  /** As many high-water notifications as upward crossings. */
  lemma HighWaterCounts(t: Trace, completes: bool)
    requires Legal(t) && Prompt(t, completes)
    ensures HighWaters(t) == Crossings(t)
  {
    CountUpTo(t, completes);
  }

  /** What the user should be told of upward crossings, in order, each with the backlog it left. */
  function Crossed<C>(self: C, t: Trace): seq<Functor<C>> {
    match t
    case Start => []
    case Then(before, last) =>
      Crossed(self, before) + if Crosses(before, last) then [HighWaterMark(self, Backlog(t))] else []
  }

  function HighWatersIn<C>(fs: seq<Functor<C>>): seq<Functor<C>> {
    if fs == [] then []
    else HighWatersIn(fs[..|fs| - 1]) + if fs[|fs| - 1].HighWaterMark? then [fs[|fs| - 1]] else []
  }

  lemma HighWatersSnoc<C>(fs: seq<Functor<C>>, f: Functor<C>)
    ensures HighWatersIn(fs + [f]) == HighWatersIn(fs) + if f.HighWaterMark? then [f] else []
  {
    assert (fs + [f])[..|fs|] == fs;
  }

  lemma {:induction false} QueuedUpTo<C>(self: C, t: Trace, completes: bool)
    requires Legal(t) && Paid(t, completes)
    ensures HighWatersIn(Queued(self, t))
            + (if t.Then? && Crosses(t.before, t.last) then [HighWaterMark(self, Backlog(t))] else [])
            == Crossed(self, t)
  {
    if t.Then? {
      QueuedUpTo(self, t.before, completes);
      QueuedNext(self, t);
    }
  }

  lemma QueuedNext<C>(self: C, t: Trace)
    requires t.Then?
    ensures HighWatersIn(Queued(self, t))
            == HighWatersIn(Queued(self, t.before))
               + if t.last.HighWater? then [HighWaterMark(self, t.last.size)] else []
  {
    var before := Queued(self, t.before);
    match t.last
    case Completed => HighWatersSnoc(before, WriteComplete(self));
    case HighWater(size) => HighWatersSnoc(before, HighWaterMark(self, size));
    case Closed => HighWatersSnoc(before, ConnectDestroyed(self));
    case _ =>
  }

  /** The high-water functors queued are those of the upward crossings, no more and no fewer, in
      their order and with their sizes. */
  lemma HighWatersQueued<C>(self: C, t: Trace, completes: bool)
    requires Legal(t) && Prompt(t, completes)
    ensures HighWatersIn(Queued(self, t)) == Crossed(self, t)
  {
    QueuedUpTo(self, t, completes);
  }

  /** Between two high-water notifications under one mark the backlog fell below the mark. */
  lemma FellBetweenCrossings(p: Trace, m: nat, t: Trace, n: nat)
    requires Legal(Then(t, HighWater(n))) && Prefix(Then(p, HighWater(m)), t)
    requires MarkOf(p) == MarkOf(t)
    ensures MarkOf(t).Some? && MarkOf(t).value <= Backlog(p)
    ensures t.Then? && Prefix(Then(p, HighWater(m)), t.before) && Backlog(t.before) < MarkOf(t).value
  {
    PrefixIsLegal(Then(p, HighWater(m)), t);
    assert Crosses(p.before, p.last) && Crosses(t.before, t.last);
  }
}
