/** The registration machine: what the poller's map and the kernel's epoll set become after each
    channel operation, as functions on values. A channel is known by a value of type C: the
    object itself in the classes, a number in the server model. */
module PollSpec {
  import opened Kernel

  /** kNew, kAdded and kDeleted. */
  datatype Index = New | Added | Deleted

  datatype Chan = Chan(fd: int, events: Mask, index: Index) {
    predicate IsWriting() { Out in events }
    predicate IsNoneEvent() { events == NONE_EVENT }
  }

  /** An entry of the kernel's set: the mask, and the channel handed back with an event. */
  datatype Interest<C> = Interest(mask: Mask, ptr: C)

  datatype CtlOp = Add | Mod | Del

  /** channels_, the kernel's set, and whether an epoll_ctl has failed: fatally, or tolerated. */
  datatype Poll<C> = Poll(channels: map<int, C>, epoll: map<int, Interest<C>>, fatal: bool, failedDel: bool)

  /** epoll_ctl with its error rules: ADD wants the descriptor absent, MOD and DEL present. */
  function Ctl<C>(p: Poll<C>, op: CtlOp, ch: Chan, c: C): Poll<C> {
    match op
    case Add =>
      if ch.fd in p.epoll then p.(fatal := true) else p.(epoll := p.epoll[ch.fd := Interest(ch.events, c)])
    case Mod =>
      if ch.fd in p.epoll then p.(epoll := p.epoll[ch.fd := Interest(ch.events, c)]) else p.(fatal := true)
    case Del =>
      if ch.fd in p.epoll then p.(epoll := p.epoll - {ch.fd}) else p.(failedDel := true)
  }

  /** EPOLLPoller::updateChannel. */
  function UpdateChannel<C>(p: Poll<C>, ch: Chan, c: C): (Poll<C>, Chan) {
    if ch.index != Added then
      var p1 := if ch.index == New then p.(channels := p.channels[ch.fd := c]) else p;
      (Ctl(p1, Add, ch, c), ch.(index := Added))
    else if ch.IsNoneEvent() then
      (Ctl(p, Del, ch, c), ch.(index := Deleted))
    else
      (Ctl(p, Mod, ch, c), ch)
  }

  /** EPOLLPoller::removeChannel. */
  function RemoveChannel<C>(p: Poll<C>, ch: Chan, c: C): (Poll<C>, Chan) {
    var p1 := p.(channels := p.channels - {ch.fd});
    (if ch.index == Added then Ctl(p1, Del, ch, c) else p1, ch.(index := New))
  }

  // ---- Agreement ----

  /** What the index of one channel claims about the map and the kernel. */
  ghost predicate ChannelAgrees<C>(p: Poll<C>, ch: Chan, c: C) {
    match ch.index
    case New =>
      && (ch.fd in p.channels ==> p.channels[ch.fd] != c)
      && (ch.fd in p.epoll ==> p.epoll[ch.fd].ptr != c)
    case Added =>
      && ch.fd in p.channels && p.channels[ch.fd] == c
      && ch.fd in p.epoll && p.epoll[ch.fd] == Interest(ch.events, c)
    case Deleted =>
      && ch.fd in p.channels && p.channels[ch.fd] == c
      && ch.fd !in p.epoll && ch.events == NONE_EVENT
  }

  /** Every channel's index tells the truth, the map and the kernel hold nothing else, and no
      epoll_ctl was ever refused. */
  ghost predicate Agreement<C>(p: Poll<C>, chans: map<C, Chan>) {
    && !p.fatal && !p.failedDel
    && (forall c <- chans :: ChannelAgrees(p, chans[c], c))
    && (forall fd <- p.channels ::
          && p.channels[fd] in chans
          && chans[p.channels[fd]].fd == fd && chans[p.channels[fd]].index != New)
    && (forall fd <- p.epoll ::
          && p.epoll[fd].ptr in chans
          && chans[p.epoll[fd].ptr].fd == fd && chans[p.epoll[fd].ptr].index == Added)
  }

  /** The caller's side: a channel not yet registered brings a descriptor no other registered
      channel uses. */
  predicate Distinct<C>(p: Poll<C>, ch: Chan) {
    ch.index == New ==> ch.fd !in p.channels
  }

  /** Events are changed only through a setter, which calls update at once; a channel in the
      deleted state may therefore show any mask for that moment. */
  lemma UpdateAgreesIff<C>(p: Poll<C>, chans: map<C, Chan>, c: C, events: Mask)
    requires Agreement(p, chans) && c in chans
    ensures var (p', ch') := UpdateChannel(p, chans[c].(events := events), c);
            Agreement(p', chans[c := ch']) <==> Distinct(p, chans[c])
  {
    var ch := chans[c].(events := events);
    var (p', ch') := UpdateChannel(p, ch, c);
    var chans' := chans[c := ch'];
    if Distinct(p, ch) {
      forall d <- chans' ensures ChannelAgrees(p', chans'[d], d) {
        assert ChannelAgrees(p, chans[d], d);
      }
    } else {
      var other := p.channels[ch.fd];
      assert ChannelAgrees(p, chans[other], other) && ChannelAgrees(p, chans[c], c);
      assert other != c && other in chans';
      assert !ChannelAgrees(p', chans'[other], other) || p'.fatal;
    }
  }

  lemma RemoveAgreesIff<C>(p: Poll<C>, chans: map<C, Chan>, c: C)
    requires Agreement(p, chans) && c in chans
    ensures var (p', ch') := RemoveChannel(p, chans[c], c);
            Agreement(p', chans[c := ch']) <==> Distinct(p, chans[c])
  {
    var ch := chans[c];
    var (p', ch') := RemoveChannel(p, ch, c);
    var chans' := chans[c := ch'];
    if Distinct(p, ch) {
      forall d <- chans' ensures ChannelAgrees(p', chans'[d], d) {
        assert ChannelAgrees(p, chans[d], d);
      }
    } else {
      var other := p.channels[ch.fd];
      assert ChannelAgrees(p, chans[other], other) && ChannelAgrees(p, ch, c);
      assert other != c && other in chans';
      assert !ChannelAgrees(p', chans'[other], other);
    }
  }

  // ---- What an operation does ----

  /** A refused ADD or MOD is fatal and a refused DEL is tolerated; a refused operation leaves the
      kernel's set alone. */
  lemma RefusalEffect<C>(p: Poll<C>, op: CtlOp, ch: Chan, c: C)
    ensures var q := Ctl(p, op, ch, c);
            var refused := (ch.fd in p.epoll) == (op == Add);
            && (q.fatal <==> p.fatal || (refused && op != Del))
            && (q.failedDel <==> p.failedDel || (refused && op == Del))
            && (refused ==> q.epoll == p.epoll) && q.channels == p.channels
  {
  }

  /** A channel that has been updated is in the kernel's set with the mask it shows, except that one
      already there leaves it on showing none; and its index says which. Nothing else changes. */
  lemma UpdateEffect<C>(p: Poll<C>, chans: map<C, Chan>, c: C, events: Mask)
    requires Agreement(p, chans) && c in chans && Distinct(p, chans[c])
    ensures var fd := chans[c].fd;
            var (p', ch') := UpdateChannel(p, chans[c].(events := events), c);
            && ch'.fd == fd && ch'.events == events
            && (fd in p'.epoll <==> events != NONE_EVENT || chans[c].index != Added)
            && (fd in p'.epoll ==> p'.epoll[fd] == Interest(events, c))
            && ch'.index == (if fd in p'.epoll then Added else Deleted)
            && p'.epoll - {fd} == p.epoll - {fd}
            && p'.channels == p.channels[fd := c]
            && !p'.fatal && !p'.failedDel
  {
    assert ChannelAgrees(p, chans[c], c);
  }

  /** A channel that has been removed is in neither the map nor the kernel's set. Nothing else
      changes. */
  lemma RemoveEffect<C>(p: Poll<C>, chans: map<C, Chan>, c: C)
    requires Agreement(p, chans) && c in chans && Distinct(p, chans[c])
    ensures var fd := chans[c].fd;
            var (p', ch') := RemoveChannel(p, chans[c], c);
            && ch' == chans[c].(index := New)
            && fd !in p'.channels && fd !in p'.epoll
            && p'.channels == p.channels - {fd} && p'.epoll == p.epoll - {fd}
            && !p'.fatal && !p'.failedDel
  {
    assert ChannelAgrees(p, chans[c], c);
  }

  // ---- Whole runs ----

  /** One channel operation. enableReading, enableWriteing, disableWriteing and disbleALL each set
      the mask and then update; remove takes the channel out. */
  datatype ChanOp<C> = SetEvents(chan: C, events: Mask) | Remove(chan: C)

  function Apply<C>(s: (Poll<C>, map<C, Chan>), op: ChanOp<C>): (r: (Poll<C>, map<C, Chan>))
    requires op.chan in s.1
    ensures r.1.Keys == s.1.Keys
  {
    var c := op.chan;
    var (p, ch) := if op.SetEvents? then UpdateChannel(s.0, s.1[c].(events := op.events), c)
                   else RemoveChannel(s.0, s.1[c], c);
    (p, s.1[c := ch])
  }

  ghost predicate Known<C>(chans: map<C, Chan>, ops: seq<ChanOp<C>>) {
    forall i :: 0 <= i < |ops| ==> ops[i].chan in chans
  }

  ghost function RunOps<C>(chans: map<C, Chan>, ops: seq<ChanOp<C>>): (r: (Poll<C>, map<C, Chan>))
    requires Known(chans, ops)
    ensures r.1.Keys == chans.Keys
  {
    if ops == [] then (Poll(map[], map[], false, false), chans)
    else Apply(RunOps(chans, ops[..|ops| - 1]), ops[|ops| - 1])
  }

  /** From an empty poller, any run of operations on fresh channels with pairwise different
      descriptors keeps map, kernel and indices in agreement. */
  lemma {:induction false} EveryRunAgrees<C>(chans: map<C, Chan>, ops: seq<ChanOp<C>>)
    requires Known(chans, ops)
    requires forall c <- chans :: chans[c].index == New
    requires forall c <- chans, d <- chans :: c != d ==> chans[c].fd != chans[d].fd
    ensures var (p, after) := RunOps(chans, ops);
            Agreement(p, after) && forall c <- chans :: after[c].fd == chans[c].fd
  {
    if ops != [] {
      var init, op := ops[..|ops| - 1], ops[|ops| - 1];
      EveryRunAgrees(chans, init);
      var (p, after) := RunOps(chans, init);
      assert ChannelAgrees(p, after[op.chan], op.chan);
      match op
      case SetEvents(c, events) => UpdateAgreesIff(p, after, c, events);
      case Remove(c) => RemoveAgreesIff(p, after, c);
    }
  }
}
