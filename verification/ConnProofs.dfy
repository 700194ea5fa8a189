/** Every operation of a connection keeps its trace legal and prompt, its buffer equal to what
    it owes, and its write interest exact, in its own mask and in the kernel's. */
module ConnProofs {
  import opened Kernel
  import opened PollSpec
  import opened LoopSpec
  import opened ConnSpec
  import opened TraceSpec

  predicate IsOpen(c: Conn) {
    c.state == Connected || c.state == Disconnecting
  }

  predicate IsDestroyed(c: Conn) {
    0 < TallyOf(c.trace).destroys
  }

  /** The mask an open connection shows: it always reads, and writes exactly while bytes wait. */
  function DueEvents(output: seq<Byte>): Mask {
    if output == [] then READ_EVENT else READ_EVENT + WRITE_EVENT
  }

  ghost predicate ChannelFits(c: Conn) {
    if IsDestroyed(c) then c.chan.index == New && c.state in {Disconnecting, Disconnected}
    else
      match c.state
      case Connecting => c.chan.index == New && c.chan.events == NONE_EVENT
      case Disconnected => c.chan.index != New && c.chan.events == NONE_EVENT
      case _ => c.chan.index == Added && c.chan.events == DueEvents(c.output)
  }

  ghost predicate TraceFits(c: Conn) {
    && Legal(c.trace) && Prompt(c.trace, c.completes)
    && c.state == StateOf(c.trace) && c.mark == MarkOf(c.trace)
    && Written(c.trace) + c.output == Taken(c.trace)
    && Used(c.trace) + c.input == Received(c.trace)
  }

  /** The trace keeps every promise; the bytes written followed by the bytes buffered are the
      bytes taken; the bytes the user took followed by the input buffer are the bytes read; and a
      shutdown that waits for nothing has happened. */
  ghost predicate Sound(c: Conn) {
    && TraceFits(c)
    && ChannelFits(c)
    && (c.ended <==> 0 < TallyOf(c.trace).fins)
    && (c.ended ==> c.output == [] && c.state in {Disconnecting, Disconnected})
    && (c.state == Disconnecting && c.output == [] && !IsDestroyed(c) ==> TallyOf(c.trace).fins == 1)
  }

  ghost predicate Agrees<C>(x: Ctx<C>, chans: map<C, Chan>) {
    x.self in chans && chans[x.self] == x.conn.chan && Agreement(x.poll, chans)
  }

  /** All that a connection's step relies on and restores. */
  ghost predicate Good<C>(x: Ctx<C>, chans: map<C, Chan>) {
    Sound(x.conn) && Agrees(x, chans)
  }

  /** The loop gained nothing but notifications for this connection, and a wake-up for them if the
      loop would not otherwise look again. */
  ghost predicate OnlyNotices<C>(self: C, before: LoopState<Functor<C>>, after: LoopState<Functor<C>>) {
    && before.pending <= after.pending && after.calling == before.calling
    && (forall i :: |before.pending| <= i < |after.pending| ==>
          after.pending[i] == WriteComplete(self)
          || (after.pending[i].HighWaterMark? && after.pending[i].conn == self))
    && before.counter <= after.counter
    && (before.calling && before.pending != after.pending ==> 0 < after.counter)
  }

  /** A step that neither brings the connection up nor takes it down. */
  ghost predicate Quiet<C>(x: Ctx<C>, y: Ctx<C>) {
    && y.self == x.self && y.conn.chan.fd == x.conn.chan.fd && y.conn.chan.index == x.conn.chan.index
    && y.conn.completes == x.conn.completes
    && (y.conn.state == x.conn.state || (x.conn.state == Connected && y.conn.state == Disconnecting))
    && TallyOf(y.conn.trace).(fins := 0) == TallyOf(x.conn.trace).(fins := 0)
    && OnlyNotices(x.self, x.loop, y.loop)
  }

  // ---- Tools ----

  lemma BacklogIsBuffered(c: Conn)
    requires Written(c.trace) + c.output == Taken(c.trace)
    ensures Backlog(c.trace) == |c.output|
  {
    assert |Written(c.trace) + c.output| == |Written(c.trace)| + |c.output|;
  }

  lemma SetInterestAgrees<C>(x: Ctx<C>, chans: map<C, Chan>, events: Mask)
    requires Agrees(x, chans) && (x.conn.chan.index == New ==> x.conn.chan.fd !in x.poll.channels)
    ensures var y := SetInterest(x, events); Agrees(y, chans[x.self := y.conn.chan])
  {
    UpdateAgreesIff(x.poll, chans, x.self, events);
  }

  // ---- Sending ----

  lemma QueueCompletionGood<C>(x: Ctx<C>, message: seq<Byte>, chans: map<C, Chan>)
    requires Good(x, chans) && x.conn.state == Connected && x.conn.output == []
    ensures var y := QueueCompletion(Note(x, Sent(message, |message|)));
            Good(y, chans) && Quiet(x, y)
  {
    BacklogIsBuffered(x.conn);
    assert message[..|message|] == message;
    var sent := Note(x, Sent(message, |message|)).conn.trace;
    assert Taken(sent) == Written(sent);
    if x.conn.completes {
      PromptPair(x.conn.trace, Sent(message, |message|), Completed, true);
      assert TallyOf(Then(sent, Completed)) == TallyOf(sent) == TallyOf(x.conn.trace);
    } else {
      PromptOne(x.conn.trace, Sent(message, |message|), false);
    }
  }

  lemma Joined(a: seq<Byte>, b: seq<Byte>, c: seq<Byte>, m: seq<Byte>, n: nat)
    requires a + b == c && n <= |m| && (b != [] ==> n == 0)
    ensures (a + m[..n]) + (b + m[n..]) == c + m
  {
    if b == [] {
      assert a == c && b + m[n..] == m[n..];
    } else {
      assert m[..n] == [] && m[n..] == m && a + [] == a;
    }
  }

  lemma RestIsOwed(t: Trace, output: seq<Byte>, message: seq<Byte>, now: nat)
    requires Written(t) + output == Taken(t) && now < |message| && (output != [] ==> now == 0)
    ensures var sent := Then(t, Sent(message, now));
            && Written(sent) + (output + message[now..]) == Taken(sent)
            && Backlog(sent) == |output| + |message| - now
            && Backlog(t) == |output|
  {
    Joined(Written(t), output, Taken(t), message, now);
    assert |Written(t) + output| == |Written(t)| + |output|;
  }

  lemma SentFits(c: Conn, message: seq<Byte>, now: nat)
    requires TraceFits(c) && c.state == Connected && now < |message| && (c.output != [] ==> now == 0)
    ensures var sent := Then(c.trace, Sent(message, now));
            && Legal(sent) && StateOf(sent) == Connected && MarkOf(sent) == c.mark
            && Written(sent) + (c.output + message[now..]) == Taken(sent)
            && Backlog(sent) == |c.output| + |message| - now && Backlog(c.trace) == |c.output|
            && TallyOf(sent) == TallyOf(c.trace)
  {
    RestIsOwed(c.trace, c.output, message, now);
  }

  /** The trace of a message kept in part: one observation, or two if the mark is crossed. */
  lemma RestFits(c: Conn, message: seq<Byte>, now: nat)
    requires TraceFits(c) && c.state == Connected && now < |message| && (c.output != [] ==> now == 0)
    ensures var o := Sent(message, now);
            var size := |c.output| + |message| - now;
            var crossed := c.mark.Some? && |c.output| < c.mark.value <= size;
            var t := if crossed then Then(Then(c.trace, o), HighWater(size)) else Then(c.trace, o);
            && TraceFits(c.(trace := t, output := c.output + message[now..]))
            && TallyOf(t) == TallyOf(c.trace)
  {
    var o := Sent(message, now);
    var sent := Then(c.trace, o);
    var size := |c.output| + |message| - now;
    SentFits(c, message, now);
    if c.mark.Some? && |c.output| < c.mark.value <= size {
      PromptPair(c.trace, o, HighWater(size), c.completes);
      var t := Then(sent, HighWater(size));
      assert Legal(t);
    } else {
      PromptOne(c.trace, o, c.completes);
    }
  }

  lemma KeepRestSound<C>(x: Ctx<C>, message: seq<Byte>, now: nat)
    requires Sound(x.conn) && x.conn.state == Connected && now < |message|
    requires x.conn.output != [] ==> now == 0
    ensures Sound(KeepRest(x, message, now).conn)
  {
    RestFits(x.conn, message, now);
    ArmedSound(x.conn, KeepRest(x, message, now).conn);
  }

  /** A connected connection with more to write, its write interest on. */
  lemma ArmedSound(c: Conn, kept: Conn)
    requires Sound(c) && c.state == Connected && kept.output != []
    requires TraceFits(kept.(chan := c.chan)) && TallyOf(kept.trace) == TallyOf(c.trace)
    requires kept.state == c.state && kept.ended == c.ended
    requires kept.chan == c.chan.(events := READ_EVENT + WRITE_EVENT)
    ensures Sound(kept)
  {
  }

  lemma KeepRestQuiet<C>(x: Ctx<C>, message: seq<Byte>, now: nat)
    requires Sound(x.conn) && x.conn.state == Connected && now < |message|
    requires x.conn.output != [] ==> now == 0
    ensures Quiet(x, KeepRest(x, message, now))
  {
    RestFits(x.conn, message, now);
  }

  lemma KeepRestGood<C>(x: Ctx<C>, message: seq<Byte>, now: nat, chans: map<C, Chan>)
    requires Good(x, chans) && x.conn.state == Connected && now < |message|
    requires x.conn.output != [] ==> now == 0
    ensures var y := KeepRest(x, message, now);
            Good(y, chans[x.self := y.conn.chan]) && Quiet(x, y)
  {
    KeepRestSound(x, message, now);
    KeepRestQuiet(x, message, now);
    assert chans[x.self := x.conn.chan] == chans;
    if !x.conn.chan.IsWriting() {
      SetInterestAgrees(x, chans, x.conn.chan.events + WRITE_EVENT);
    }
  }

  lemma SentNothingGood<C>(x: Ctx<C>, chans: map<C, Chan>)
    requires Good(x, chans) && x.conn.state == Connected
    ensures var y := Note(x, Sent([], 0)); Good(y, chans) && Quiet(x, y)
  {
    BacklogIsBuffered(x.conn);
  }

  lemma DroppedGood<C>(x: Ctx<C>, message: seq<Byte>, chans: map<C, Chan>)
    requires Good(x, chans) && x.conn.state == Connected && x.conn.output == []
    ensures var y := Note(x, Dropped(message)); Good(y, chans) && Quiet(x, y)
  {
    BacklogIsBuffered(x.conn);
  }

  lemma SendGood<C>(x: Ctx<C>, message: seq<Byte>, answer: WriteAnswer, chans: map<C, Chan>)
    requires Good(x, chans)
    ensures var y := Send(x, message, answer);
            Good(y, chans[x.self := y.conn.chan]) && Quiet(x, y)
  {
    assert chans[x.self := x.conn.chan] == chans;
    if x.conn.state == Connected {
      if !x.conn.chan.IsWriting() && x.conn.output == [] {
        match answer
        case Takes(room) =>
          if |message| <= room {
            QueueCompletionGood(x, message, chans);
          } else {
            KeepRestGood(x, message, room, chans);
          }
        case Refuses(errno) =>
          if errno == BrokenPipe || errno == ConnectionReset {
            DroppedGood(x, message, chans);
          } else if message == [] {
            SentNothingGood(x, chans);
          } else {
            KeepRestGood(x, message, 0, chans);
          }
      } else if message == [] {
        SentNothingGood(x, chans);
      } else {
        KeepRestGood(x, message, 0, chans);
      }
    }
  }

  /** The errors that lose a message. */
  predicate Broken(reply: WriteAnswer) {
    reply == Refuses(BrokenPipe) || reply == Refuses(ConnectionReset)
  }

  /** A message is taken whole; unless a connection found broken on the spot drops it whole, or
      the connection takes no messages any more. */
  lemma SendIsWholeOrNothing<C>(x: Ctx<C>, message: seq<Byte>, answer: WriteAnswer)
    ensures var t, y := x.conn.trace, Send(x, message, answer).conn;
            var broken := Broken(Heard(x.conn.ended, answer));
            var direct := x.conn.output == [] && !x.conn.chan.IsWriting();
            if x.conn.state == Connected && !(direct && broken)
            then Taken(y.trace) == Taken(t) + message
            else Taken(y.trace) == Taken(t) && Written(y.trace) == Written(t) && y.output == x.conn.output
  {
    var reply := Heard(x.conn.ended, answer);
    if reply.Takes? && |message| <= reply.room {
      WholeTakes(x, message);
    } else if reply.Takes? {
      RestTakes(x, message, reply.room);
    }
    if message != [] {
      RestTakes(x, message, 0);
    }
  }

  lemma WholeTakes<C>(x: Ctx<C>, message: seq<Byte>)
    ensures Taken(QueueCompletion(Note(x, Sent(message, |message|))).conn.trace) == Taken(x.conn.trace) + message
  {
  }

  lemma RestTakes<C>(x: Ctx<C>, message: seq<Byte>, now: nat)
    requires now < |message|
    ensures Taken(KeepRest(x, message, now).conn.trace) == Taken(x.conn.trace) + message
  {
  }

  // ---- Shutting down and draining ----

  lemma ShutdownFits(c: Conn)
    requires TraceFits(c) && c.state == Connected
    ensures var shut := Then(c.trace, Shut);
            && TraceFits(c.(state := Disconnecting, trace := shut))
            && TallyOf(shut) == TallyOf(c.trace)
            && (c.output == [] ==> && TraceFits(c.(state := Disconnecting, trace := Then(shut, Fin)))
                                   && TallyOf(Then(shut, Fin)) == TallyOf(c.trace).(fins := 1))
  {
    BacklogIsBuffered(c);
    PromptOne(c.trace, Shut, c.completes);
    NoFinYet(c.trace);
    if c.output == [] {
      PromptOne(Then(c.trace, Shut), Fin, c.completes);
    }
  }

  lemma ShutdownGood<C>(x: Ctx<C>, chans: map<C, Chan>)
    requires Good(x, chans)
    ensures var y := Shutdown(x); Good(y, chans) && Quiet(x, y)
  {
    if x.conn.state == Connected {
      ShutdownFits(x.conn);
    }
  }

  /** While the connection is up its write side has not been shut down. */
  lemma {:induction false} NoFinYet(t: Trace)
    requires Legal(t) && StateOf(t) in {Connecting, Connected}
    ensures TallyOf(t).fins == 0
  {
    if t.Then? {
      NoFinYet(t.before);
    }
  }

  /** While bytes wait the write side has not been shut down. */
  lemma {:induction false} NoFinWhileOwing(t: Trace)
    requires Legal(t) && 0 < Backlog(t)
    ensures TallyOf(t).fins == 0
  {
    if StateOf(t) == Connecting || StateOf(t) == Connected {
      NoFinYet(t);
    } else {
      NoFinWhileOwing(t.before);
    }
  }

  /** The bookkeeping of a drain: n bytes leave the front of the buffer. */
  lemma DrainedFits(c: Conn, n: nat)
    requires TraceFits(c) && IsOpen(c) && 0 < n <= |c.output|
    ensures var t := Then(c.trace, Drained(c.output[..n]));
            && Legal(t) && StateOf(t) == c.state && MarkOf(t) == c.mark
            && Written(t) + c.output[n..] == Taken(t) && Backlog(t) == |c.output| - n
            && Paid(t, c.completes) && !Crosses(c.trace, t.last)
            && TallyOf(t) == TallyOf(c.trace)
  {
    BacklogIsBuffered(c);
    assert c.output == c.output[..n] + c.output[n..];
    assert Written(c.trace) + c.output[..n] + c.output[n..] == Taken(c.trace);
    assert Written(c.trace) + c.output[..n] <= Taken(c.trace);
  }

  lemma DrainSomeGood<C>(x: Ctx<C>, n: nat, chans: map<C, Chan>)
    requires Good(x, chans) && IsOpen(x.conn) && !IsDestroyed(x.conn) && 0 < n < |x.conn.output|
    ensures var y := Note(x.(conn := x.conn.(output := x.conn.output[n..])), Drained(x.conn.output[..n]));
            Good(y, chans) && Quiet(x, y)
  {
    DrainedFits(x.conn, n);
  }

  /** The trace of a drain that empties the buffer: the notification, then the delayed end. */
  lemma DrainAllFits(c: Conn)
    requires TraceFits(c) && IsOpen(c) && c.output != []
    ensures var drained := Then(c.trace, Drained(c.output));
            var told := if c.completes then Then(drained, Completed) else drained;
            && TraceFits(c.(output := [], trace := told)) && TallyOf(told) == TallyOf(c.trace)
            && Taken(told) == Taken(Then(told, Fin)) == Taken(c.trace)
            && (c.state == Disconnecting ==>
                  && TraceFits(c.(output := [], trace := Then(told, Fin)))
                  && TallyOf(Then(told, Fin)) == TallyOf(c.trace).(fins := 1))
  {
    assert c.output[..|c.output|] == c.output;
    DrainedFits(c, |c.output|);
    BacklogIsBuffered(c);
    NoFinWhileOwing(c.trace);
    var o := Drained(c.output);
    var drained := Then(c.trace, o);
    assert Written(drained) + [] == Written(drained);
    if c.completes {
      PromptPair(c.trace, o, Completed, true);
    } else {
      PromptOne(c.trace, o, false);
    }
    var told := if c.completes then Then(drained, Completed) else drained;
    if c.state == Disconnecting {
      PromptOne(told, Fin, c.completes);
    }
  }

  lemma DrainAllSound<C>(x: Ctx<C>, room: nat)
    requires Sound(x.conn) && IsOpen(x.conn) && !IsDestroyed(x.conn) && 0 < |x.conn.output| <= room
    ensures var y := HandleWrite(x, Takes(room));
            Sound(y.conn) && y.conn.output == [] && Taken(y.conn.trace) == Taken(x.conn.trace)
  {
    var c := x.conn;
    assert c.output[..|c.output|] == c.output && c.output[|c.output|..] == [];
    DrainAllFits(c);
    assert c.chan.events - WRITE_EVENT == READ_EVENT;
  }

  lemma HandleWriteNotices<C>(x: Ctx<C>, answer: WriteAnswer)
    ensures OnlyNotices(x.self, x.loop, HandleWrite(x, answer).loop)
  {
  }

  lemma DrainAllQuiet<C>(x: Ctx<C>, room: nat)
    requires Sound(x.conn) && IsOpen(x.conn) && !IsDestroyed(x.conn) && 0 < |x.conn.output| <= room
    ensures Quiet(x, HandleWrite(x, Takes(room)))
  {
    var c := x.conn;
    assert c.output[..|c.output|] == c.output && c.output[|c.output|..] == [];
    DrainAllFits(c);
    HandleWriteNotices(x, Takes(room));
  }

  lemma DrainAllGood<C>(x: Ctx<C>, room: nat, chans: map<C, Chan>)
    requires Good(x, chans) && IsOpen(x.conn) && !IsDestroyed(x.conn) && 0 < |x.conn.output| <= room
    ensures var y := HandleWrite(x, Takes(room));
            && Good(y, chans[x.self := y.conn.chan]) && Quiet(x, y) && y.conn.output == []
            && Taken(y.conn.trace) == Taken(x.conn.trace)
  {
    DrainAllSound(x, room);
    DrainAllQuiet(x, room);
    SetInterestAgrees(x, chans, x.conn.chan.events - WRITE_EVENT);
  }

  lemma HandleWriteGood<C>(x: Ctx<C>, answer: WriteAnswer, chans: map<C, Chan>)
    requires Good(x, chans) && !IsDestroyed(x.conn)
    ensures var y := HandleWrite(x, answer);
            && Good(y, chans[x.self := y.conn.chan]) && Quiet(x, y)
            && Taken(y.conn.trace) == Taken(x.conn.trace)
  {
    assert chans[x.self := x.conn.chan] == chans;
    if x.conn.chan.IsWriting() && answer.Takes? && 0 < Min(answer.room, |x.conn.output|) {
      var n := Min(answer.room, |x.conn.output|);
      if n < |x.conn.output| {
        DrainSomeGood(x, n, chans);
      } else {
        DrainAllGood(x, answer.room, chans);
      }
    }
  }

  // ---- Life and death ----

  /** The loop is left alone. */
  ghost predicate SameLoop<C>(x: Ctx<C>, y: Ctx<C>) {
    && y.self == x.self && y.loop == x.loop && y.conn.chan.fd == x.conn.chan.fd
    && y.conn.completes == x.conn.completes
  }

  /** A turn of the connection's life, as far as the trace goes. */
  lemma TurnFits(c: Conn, o: Obs)
    requires TraceFits(c) && Allowed(c.trace, o) && o in {Up, Down, Closed, Destroyed}
    ensures TraceFits(c.(state := NextState(c.state, o), trace := Then(c.trace, o)))
  {
    PromptOne(c.trace, o, c.completes);
  }

  lemma EstablishedGood<C>(x: Ctx<C>, chans: map<C, Chan>)
    requires Good(x, chans) && x.conn.state == Connecting && x.conn.output == []
    requires x.conn.chan.fd !in x.poll.channels
    ensures var y := ConnectEstablished(x);
            && Good(y, chans[x.self := y.conn.chan]) && SameLoop(x, y)
            && y.conn.state == Connected
            && TallyOf(y.conn.trace) == TallyOf(x.conn.trace).(ups := TallyOf(x.conn.trace).ups + 1)
  {
    SetInterestAgrees(x, chans, x.conn.chan.events + READ_EVENT);
    assert NONE_EVENT + READ_EVENT == READ_EVENT;
    TurnFits(x.conn, Up);
  }

  ghost predicate Available<C>(poll: Poll<C>, chans: map<C, Chan>, self: C, fd: int) {
    Agreement(poll, chans) && self !in chans && fd !in poll.channels && fd !in poll.epoll
  }

  lemma NewConnGood<C>(self: C, fd: int, completes: bool, poll: Poll<C>, loop: LoopState<Functor<C>>, chans: map<C, Chan>)
    requires Available(poll, chans, self, fd)
    ensures Good(Ctx(self, NewConn(fd, completes), poll, loop), chans[self := Chan(fd, NONE_EVENT, New)])
  {
    var after := chans[self := Chan(fd, NONE_EVENT, New)];
    forall c <- after ensures ChannelAgrees(poll, after[c], c) {
      if c != self {
        assert ChannelAgrees(poll, chans[c], c);
      }
    }
  }

  /** A connection on a descriptor of its own comes up keeping every promise. */
  lemma FirstUp<C>(x: Ctx<C>, chans: map<C, Chan>)
    requires Good(x, chans[x.self := x.conn.chan]) && x.conn.state == Connecting && x.conn.output == []
    requires x.conn.chan.fd !in x.poll.channels
    ensures var y := ConnectEstablished(x);
            && Good(y, chans[x.self := y.conn.chan]) && SameLoop(x, y) && y.conn.state == Connected
            && TallyOf(y.conn.trace) == TallyOf(x.conn.trace).(ups := TallyOf(x.conn.trace).ups + 1)
  {
    var y := ConnectEstablished(x);
    EstablishedGood(x, chans[x.self := x.conn.chan]);
    assert chans[x.self := x.conn.chan][x.self := y.conn.chan] == chans[x.self := y.conn.chan];
  }

  lemma CloseBeginGood<C>(x: Ctx<C>, chans: map<C, Chan>)
    requires Good(x, chans) && x.conn.state != Connecting && !IsDestroyed(x.conn)
    ensures var y := CloseBegin(x);
            && Good(y, chans[x.self := y.conn.chan]) && SameLoop(x, y)
            && y.conn.state == Disconnected && !IsDestroyed(y.conn)
            && TallyOf(y.conn.trace) == TallyOf(x.conn.trace).(downs := TallyOf(x.conn.trace).downs + 1)
  {
    SetInterestAgrees(x, chans, NONE_EVENT);
    TurnFits(x.conn, Down);
  }

  /** connectDestroyed up to the user's callback. */
  lemma DestroyBeginGood<C>(x: Ctx<C>, chans: map<C, Chan>)
    requires Good(x, chans) && x.conn.state != Connecting
    ensures var y := DestroyBegin(x);
            var downs := TallyOf(x.conn.trace).downs + if x.conn.state == Connected then 1 else 0;
            && Good(y, chans[x.self := y.conn.chan]) && SameLoop(x, y)
            && y.conn.state == (if x.conn.state == Connected then Disconnected else x.conn.state)
            && TallyOf(y.conn.trace) == TallyOf(x.conn.trace).(downs := downs)
  {
    if x.conn.state == Connected {
      CloseBeginGood(x, chans);
    }
    assert chans[x.self := x.conn.chan] == chans;
  }

  lemma CloseEndGood<C>(x: Ctx<C>, chans: map<C, Chan>)
    requires Good(x, chans) && x.conn.state == Disconnected
    ensures var y := CloseEnd(x);
            && Good(y, chans) && y.poll == x.poll && y.self == x.self
            && y.conn == x.conn.(trace := Then(x.conn.trace, Closed))
            && TallyOf(y.conn.trace) == TallyOf(x.conn.trace).(closes := TallyOf(x.conn.trace).closes + 1)
            && y.loop == Queue(x.loop, ConnectDestroyed(x.self), true)
  {
    TurnFits(x.conn, Closed);
  }

  lemma DestroyEndGood<C>(x: Ctx<C>, chans: map<C, Chan>)
    requires Good(x, chans) && x.conn.state in {Disconnecting, Disconnected}
    requires Distinct(x.poll, x.conn.chan)
    ensures var y := DestroyEnd(x);
            && Good(y, chans[x.self := y.conn.chan]) && SameLoop(x, y)
            && y.conn.state == x.conn.state && y.conn.chan.index == New
            && TallyOf(y.conn.trace) == TallyOf(x.conn.trace).(destroys := TallyOf(x.conn.trace).destroys + 1)
  {
    RemoveAgreesIff(x.poll, chans, x.self);
    TurnFits(x.conn, Destroyed);
  }

  lemma UseGood<C>(x: Ctx<C>, op: UserOp, chans: map<C, Chan>)
    requires Good(x, chans)
    ensures var y := Use(x, op);
            Good(y, chans[x.self := y.conn.chan]) && Quiet(x, y)
  {
    assert chans[x.self := x.conn.chan] == chans;
    match op
    case DoSend(message, answer) => SendGood(x, message, answer, chans);
    case DoShutdown => ShutdownGood(x, chans);
    case DoSetMark(mark) => SetMarkGood(x, mark, chans);
    case DoRetrieve(len) => RetrieveGood(x, len, chans);
  }

  lemma RetrieveGood<C>(x: Ctx<C>, len: nat, chans: map<C, Chan>)
    requires Good(x, chans)
    ensures var y := Use(x, DoRetrieve(len)); Good(y, chans) && Quiet(x, y)
  {
    var n := Min(len, |x.conn.input|);
    var bytes := x.conn.input[..n];
    assert x.conn.input == bytes + x.conn.input[n..];
    assert Used(x.conn.trace) + bytes + x.conn.input[n..] == Received(x.conn.trace);
    assert Used(x.conn.trace) + bytes <= Received(x.conn.trace);
    PromptOne(x.conn.trace, Consumed(bytes), x.conn.completes);
  }

  lemma ReceiveGood<C>(x: Ctx<C>, data: seq<Byte>, chans: map<C, Chan>)
    requires Good(x, chans) && x.conn.state != Connecting
    ensures var y := Receive(x, data); Good(y, chans) && Quiet(x, y)
  {
    assert Used(x.conn.trace) + (x.conn.input + data) == (Used(x.conn.trace) + x.conn.input) + data;
    PromptOne(x.conn.trace, Arrived(data), x.conn.completes);
  }

  lemma SetMarkGood<C>(x: Ctx<C>, mark: nat, chans: map<C, Chan>)
    requires Good(x, chans)
    ensures var y := Use(x, DoSetMark(mark)); Good(y, chans) && Quiet(x, y)
  {
    PromptOne(x.conn.trace, Marked(Some(mark)), x.conn.completes);
  }
}
