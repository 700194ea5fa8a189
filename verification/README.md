# A verified model of the reactor

The library is a single-threaded-per-loop TCP server: an epoll poller, an event loop with a task
queue woken through an eventfd, connections that buffer what the kernel does not take, and a server
that owns them. This project models one loop with everything on it and proves what its users rely
on.

Four layers, from the bottom up:

* **Buffer** (`Kernel`, `Sockets`, `Buffers`). The growable array with its two indices. The array class is proved to
  be a plain byte queue, and the array's size is bounded over whole runs, sharply.
* **Poller and loop** (`PollSpec`, `LoopSpec`, `Reactor`, `WakeupProtocol`). `Channel`, `EPOLLPoller` and `EventLoop`
  as classes, each method equal to a function on values. About those functions: the channel index, the poller's map
  and the kernel's set agree after every run of operations; and, with any number of threads and every interleaving of
  their atomic steps, no wake-up and no quit is lost, and every functor runs once, in the order of the lock.
* **Connection** (`ConnSpec`, `TraceSpec`, `ConnProofs`, `ConnTheorems`, `ConnEffects`, `Connections`,
  `ConnectionRuns`). A connection keeps a ghost trace of what an observer at its edges sees; the class ties the trace
  to the socket itself. `TraceSpec` says, without mentioning the code, which observation may follow which (`Legal`)
  and which must follow at once (`Prompt`), and draws the consequences. `ConnProofs` shows that every operation of the
  code keeps its trace legal and prompt. `Connections` holds the `TcpConnection` and `TcpServer` classes, proved equal
  to the functions of `ConnSpec`; `ConnEffects` says what each operation accomplishes for streams, buffers, state and
  the kernel's set; `ConnectionRuns` takes one such object through any run of calls and events from its birth.
* **Server** (`Naming`, `Server`, `ServerProofs`, `ServerTheorems`, `TaskHistory`, `ServerEffects`, `Lifecycle`,
  `HangupRuns`). The whole single-loop server as a machine whose steps are the pieces between which user code may run:
  callbacks may use any connection they still hold, at any point, and other threads queue tasks meanwhile. One
  invariant is kept by every step; ownership, the map and the lives of connections follow, and the tasks a connection
  queues are run once each, in order. `ServerEffects` shows that the small steps make up the whole operations, and
  that the machine can always go on.

The kernel is a nondeterministic environment. Every answer of `write`, `readv` and `epoll_wait` is an argument, so a
statement for all arguments is a statement for all kernels. `write` takes any prefix or fails with any error; `readv`
fills the first area before the second; the eventfd is a counter that a read resets; epoll is a map from descriptor to
mask and channel. Once a write side is shut down, the kernel refuses every write to it with EPIPE.

## Where the code does less than its comments and design promise

Each is proved, with the exact condition under which the code does meet the promise.

* A report with `EPOLLHUP` and `EPOLLPRI` but not `EPOLLIN` runs the close branch and then the read branch of one
  dispatch, so `handleClose` can run twice (`Channel.cc:72-94`). See `ConnTheorems.DownOncePerDispatchIff`,
  `ConnTheorems.ClosesTwice` and, for whole runs, `HangupRuns.EndsOnceIffCalm`. Ownership is proved for all masks: not
  even a second close leaves a dangling pointer.
* A `queueInLoop` on the loop's own thread before `loop()` starts writes no wake-up (`Eventloop.cc:148-151`). See
  `WakeupProtocol.NoLostWakeupIff`.
* `shutdown` from another thread sets the state at once and queues the rest; if all that waited is written in between,
  the write side is shut down twice (`TcpConnection.cc:103-106, 261-278`). See `ConnTheorems.ShutdownElsewhereOnceIff`.
* A message sent from another thread while the connection was up is lost whole if, when its queued half runs, the
  connection has closed, or nothing waits and the kernel finds the connection broken, as it does once the write side
  is shut down (`TcpConnection.cc:163, 179-212`). See `ConnTheorems.SendInLoopKeepsIff` for every state, and
  `ConnTheorems.LateSendIsLostIff` and `ConnTheorems.FlaggedSendIsLostIff` for the states a shutdown leads to. All
  other statements about streams are about calls on the loop's thread.
* The buffer's constructor ignores its argument (`Buffer.h:17-21`): the size asked for is met only if it is 1024. See
  `Buffers.Buffer.constructor`.
* The user of a connection that is shutting down when the server's destructor reaches it is never told that it went
  down (`TcpConnection.cc:249-258`). See `Lifecycle.DestroyedUntoldIff` and `Lifecycle.TeardownTellsIffConnected`.

## Model

| member | source | states |
|---|---|---|
| `Buffers.Buffer.constructor` | Buffer.h:17-21 | A new buffer is the empty queue in an array of 8 + 1024 bytes, so the size asked for is met if and only if it is 1024. |
| `Buffers.Buffer.Retrieve` | Buffer.h:55-67 | Drops that many bytes from the front of the queue; asking for more than there is empties it. |
| `Buffers.Buffer.RetrieveAll` | Buffer.h:69-72 | Empties the queue and puts both indices back to the reserved prefix. |
| `Buffers.Buffer.RetrieveAsString` | Buffer.h:80-85 | The string returned followed by what is left is what was there. |
| `Buffers.Buffer.RetrieveAllAsString` | Buffer.h:75-78 | Returns the whole queue and leaves it empty. |
| `Buffers.Buffer.EnsureWritableBytes` | Buffer.h:90-97 | Makes room without changing the queue; does nothing when there is room. |
| `Buffers.Buffer.MakeSpace` | Buffer.h:126-141 | Growing or moving the bytes down in a forward, overlapping copy, the queue stays the same and the room asked for is there. |
| `Buffers.Buffer.Resize` | Buffer.h:130 | Growing never truncates: every old byte stays where it was. |
| `Buffers.Buffer.Append` | Buffer.h:100-105 | The bytes are added at the end of the queue, whatever the fill level. |
| `Buffers.Buffer.ReadFd` | Buffer.cc:8-45 | For every fill level and every amount on offer, the queue grows by exactly the bytes returned, in order, whether they fit the tail or spill into the 64K area; a failure changes nothing. |
| `Buffers.Buffer.WriteFd` | Buffer.cc:49-59 | The kernel gets a prefix of the queue; the queue itself stays. |
| `Buffers.ReadCapacityBounds` | Buffer.cc:25-28 | One scatter read can always take 64K, and takes at most the tail or 128K less one byte. |
| `Buffers.Replay` | Buffer.h:55-141 | Through any run of appends, takes and scatter reads the array holds exactly the abstract queue of that run, within the size bound. |
| `Buffers.StepStaysHealthy` | Buffer.h:90-141 | Every operation keeps the indices ordered and exact, the read index at the prefix when nothing is left, and the array within its bound, never shrinking. |
| `Buffers.SizeStaysBounded` | Buffer.h:126-141 | Over every run the array has its first 1032 bytes while the largest backlog P reached is at most 1024, and never outgrows 2P + 6 beyond. |
| `Buffers.BoundIsSharp` | Buffer.h:128-131 | For every largest backlog some run reaches the bound exactly. |
| `Reactor.Channel.EnableReading` | Channel.h:56 | Adds the read bits to the mask and brings poller and kernel up to date. |
| `Reactor.Channel.EnableWriting` | Channel.h:58 | Adds the write bit and brings poller and kernel up to date. |
| `Reactor.Channel.DisableWriting` | Channel.h:59 | Removes the write bit and brings poller and kernel up to date. |
| `Reactor.Channel.DisableAll` | Channel.h:60 | Clears the mask and brings poller and kernel up to date. |
| `Reactor.Channel.Remove` | Channel.cc:47-51 | Takes the channel out of the poller and the kernel. |
| `Reactor.EPOLLPoller.Update` | EPOLLPoller.cc:91-114 | epoll_ctl with its rules: ADD wants the descriptor absent, MOD and DEL present; a failed DEL is tolerated, any other failure is fatal. |
| `Reactor.EPOLLPoller.UpdateChannel` | EPOLLPoller.cc:42-71 | Adds, modifies or deletes as the channel's index and mask demand. |
| `Reactor.EPOLLPoller.RemoveChannel` | EPOLLPoller.cc:73-85 | The channel leaves the map, and the kernel if it was there. |
| `Reactor.EPOLLPoller.FillActiveChannels` | EPOLLPoller.cc:155-164 | The active list is the reported channels in order, each with its reported mask. |
| `PollSpec.UpdateAgreesIff` | EPOLLPoller.cc:42-71 | After any setter index, map and kernel set agree and no epoll_ctl was refused, if and only if a channel not yet registered brings a descriptor that no other registered channel has. |
| `PollSpec.RemoveAgreesIff` | EPOLLPoller.cc:73-85 | The same for remove. |
| `PollSpec.RefusalEffect` | EPOLLPoller.cc:103-113 | A refused ADD or MOD is fatal, a refused DEL tolerated, and the kernel's set is left alone. |
| `PollSpec.UpdateEffect` | EPOLLPoller.cc:42-71 | After an update the descriptor is in the kernel's set with the mask shown, unless the channel was there already and now shows none; its index is kAdded or kDeleted accordingly; no other descriptor is touched. |
| `PollSpec.RemoveEffect` | EPOLLPoller.cc:73-85 | After a removal the descriptor is in neither map nor kernel; no other is touched. |
| `PollSpec.EveryRunAgrees` | EPOLLPoller.cc:42-114 | From an empty poller, every run of channel operations on channels with distinct descriptors keeps agreement, so the fatal branch is not reached by misuse. |
| `Reactor.EventLoop.Wakeup` | Eventloop.cc:155-164 | Leaves the counter positive; at its limit the write fails harmlessly. |
| `Reactor.EventLoop.HandleRead` | Eventloop.cc:67-76 | Takes the whole counter. |
| `Reactor.EventLoop.QueueInLoop` | Eventloop.cc:139-152 | The task goes to the end of the queue, alone; from another thread or while functors run the counter is positive afterwards, and otherwise it is left alone. |
| `Reactor.EventLoop.Quit` | Eventloop.cc:115-124 | The flag is set; from another thread the counter is positive afterwards. |
| `LoopSpec.QueueWakes` | Eventloop.cc:139-152 | The same of the function the machines use: one task more at the end, and a wake-up exactly when the loop would not look again by itself. |
| `LoopSpec.QueueAllPending` | Eventloop.cc:139-152 | Tasks queued one after the other stand in the queue in that order; if functors were running, the counter is positive. |
| `Reactor.EventLoop.DoPendingFunctors` | Eventloop.cc:183-198 | Runs exactly the functors pending at the swap, in order, leaves what they queued for the next round, and leaves the counter positive if that is anything. |
| `WakeupProtocol.StepKeepsInv` | Eventloop.cc:67-198 | Every atomic step of the loop thread or of any other thread keeps the protocol's invariant and, where it held, that queued work is covered by a wake-up. |
| `WakeupProtocol.NoLostWakeupIff` | Eventloop.cc:85-106 | From a state just past the reset of quit, no interleaving ever blocks in poll with work queued, a zero counter and no wake-up owed, if and only if work already queued there is covered by a wake-up. |
| `WakeupProtocol.QuitIsHeard` | Eventloop.cc:115-124 | After the reset, no reachable state blocks in poll with quit set, a zero counter and no quitter about to wake it. |
| `WakeupProtocol.QuitEndsPolling` | Eventloop.cc:85-106 | Once quit is set the loop does not poll again. |
| `WakeupProtocol.QuitIsSetIff` | Eventloop.cc:115-124 | After any run quit is set if and only if it was before or some thread called quit on the way. |
| `WakeupProtocol.QuitExits` | Eventloop.cc:85-106 | With quit set, and the counter positive if the loop is in poll, the loop thread's own steps lead out of loop() without another poll. |
| `WakeupProtocol.ForeignQuitIsFlagThenWake` | Eventloop.cc:115-124 | Another thread's quit is the flag and then the wake-up, leaving the counter positive. |
| `WakeupProtocol.ForeignQueueIsPushThenWake` | Eventloop.cc:139-164 | Another thread's queueInLoop is its push and then its wake-up, which together are the queueing function. |
| `WakeupProtocol.LoopQueueIsPushThenWake` | Eventloop.cc:139-164 | So is the loop thread's, in one step while events are handled and in two while functors run. |
| `WakeupProtocol.PollAndQuitAreOpen` | Eventloop.cc:85-124 | Poll may return with the wake-up channel exactly while the counter is positive and without it at any time; user code on the loop thread may quit. |
| `WakeupProtocol.ExactlyOnceInOrder` | Eventloop.cc:139-198 | Executed functors, the rest of the batch and the queue are always together exactly what was pushed, in lock order. |
| `WakeupProtocol.PushedTasksOnceInOrder` | Eventloop.cc:139-198 | Executed functors, the rest of the batch and the queue are together what was queued at the start and then what the steps of the run pushed. |
| `WakeupProtocol.RoundRunsTheSwap` | Eventloop.cc:183-198 | A round executes exactly the functors of its swap. |
| `WakeupProtocol.BatchOnlyShrinks` | Eventloop.cc:192-195 | Within a round the functors run are the first of its batch, in order and no more than it had; nothing pushed meanwhile reaches the batch, so a round ends. |
| `WakeupProtocol.QueuedWorkRuns` | Eventloop.cc:87-105 | From poll with a positive counter the loop's own steps run everything queued and leave the counter at zero. |
| `Connections.TcpConnection.constructor` | TcpConnection.cc:22-50 | A new connection is connecting, with empty buffers, an unregistered channel and a socket nothing was written to. |
| `Connections.TcpConnection.Send` | TcpConnection.cc:153-166 | Sends only while connected. The object keeps its trace true to its socket. |
| `Connections.TcpConnection.SendInLoop` | TcpConnection.cc:173-236 | The message is offered to the kernel only if nothing waits; EPIPE and ECONNRESET drop it, any other failure keeps it whole; what was not written goes behind what waits, with write interest on. Socket, buffer, channel, poller, queue and trace change together. |
| `Connections.TcpConnection.WriteNow` | TcpConnection.cc:186-212 | The direct write: how much the kernel took, whether the connection is broken, and write-complete queued if that was all. |
| `Connections.TcpConnection.KeepRest` | TcpConnection.cc:217-235 | The unwritten rest goes to the end of the output buffer and write interest is on. |
| `Connections.TcpConnection.TakeRest` | TcpConnection.cc:220-226 | The high-water notification is queued exactly when the backlog crosses the mark. |
| `Connections.TcpConnection.Shutdown` | TcpConnection.cc:261-268 | Only a connected connection starts to shut down. |
| `Connections.TcpConnection.ShutdownInLoop` | TcpConnection.cc:272-278 | Shuts the write side down unless bytes wait. |
| `Connections.TcpConnection.HandleWrite` | TcpConnection.cc:80-119 | Writes from the output buffer, drops what the kernel took, and at the end turns write interest off, notifies and completes a delayed shutdown. |
| `Connections.TcpConnection.FinishDrain` | TcpConnection.cc:92-107 | The steps taken when the buffer has become empty. |
| `Connections.TcpConnection.SetHighWaterMark` | TcpConnection.h:55-59 | Sets callback and mark together. |
| `Connections.TcpConnection.ConnectEstablished` | TcpConnection.cc:239-246 | Connected and registered for reading before the user's callback, which may do anything to the connection. |
| `Connections.TcpConnection.ConnectDestroyed` | TcpConnection.cc:249-258 | A still connected connection goes down first; then the channel is removed. |
| `Connections.TcpConnection.HandleClose` | TcpConnection.cc:121-132 | Down, the user's callback, then the server forgets exactly this name and queues connectDestroyed. |
| `Connections.TcpConnection.CloseBegin` | TcpConnection.cc:124-129 | Disconnected, no interest left in channel and kernel, before the user is told. |
| `Connections.TcpConnection.CloseEnd` | TcpConnection.cc:130 | The close callback: this name leaves the server's map and connectDestroyed is queued. |
| `Connections.TcpConnection.HandleRead` | TcpConnection.cc:57-77 | Bytes go to the user, the end of the stream closes, a failure changes nothing. |
| `Connections.TcpConnection.HandleEvent` | Channel.cc:69-104 | The branches in their order, each callback run to its end; of bytes on offer at least 64K are taken, or all. |
| `Connections.TcpServer.NewConnection` | TcpServer.cc:65-105 | The connection gets the next name, which no connection has, is entered without displacing another, and is up on return. |
| `Connections.TcpServer.NextName` | TcpServer.cc:70-75 | The name made from the next counter is not in the map. |
| `Connections.TcpServer.RemoveConnection` | TcpServer.cc:107-110 | On the loop's thread the removal runs at once. |
| `Connections.TcpServer.RemoveConnectionInLoop` | TcpServer.cc:112-119 | Erases exactly that name and queues connectDestroyed. |
| `ConnProofs.SendGood` | TcpConnection.cc:153-236 | Whatever the kernel answers, a send keeps every promise: bytes written and buffered are the bytes taken, the trace legal and prompt, write interest exact in the channel and the kernel. |
| `ConnProofs.SendIsWholeOrNothing` | TcpConnection.cc:173-236 | A message is taken whole, or, hit by EPIPE or ECONNRESET on a direct write, dropped whole. |
| `ConnProofs.RestFits` | TcpConnection.cc:217-228 | A message kept in part crosses the mark or not, and the notification is noted exactly if it does, with the backlog right after the append. |
| `ConnProofs.ShutdownGood` | TcpConnection.cc:261-278 | A shutdown keeps every promise; the write side ends only with nothing owed. |
| `ConnProofs.NoFinYet` | TcpConnection.cc:261-278 | While the connection is up its write side has not been shut down. |
| `ConnProofs.NoFinWhileOwing` | TcpConnection.cc:272-278 | While bytes wait the write side has not been shut down. |
| `ConnProofs.HandleWriteGood` | TcpConnection.cc:80-119 | A write event keeps every promise and takes no message away. |
| `ConnProofs.DrainAllGood` | TcpConnection.cc:89-107 | Emptying the buffer keeps every promise, the prompt notification and the delayed end among them, and turns write interest off in the kernel too. |
| `ConnProofs.EstablishedGood` | TcpConnection.cc:239-246 | Bringing a connection up keeps every promise if its descriptor is not registered. |
| `ConnProofs.CloseBeginGood` | TcpConnection.cc:121-129 | Going down keeps every promise and counts one down notification. |
| `ConnProofs.DestroyEndGood` | TcpConnection.cc:249-258 | Removing the channel keeps every promise and takes the connection out of poller and kernel. |
| `ConnProofs.UseGood` | TcpConnection.cc:153-278 | Anything a user callback does keeps every promise. |
| `TraceSpec.WrittenIsPrefix` | TcpConnection.cc:173-236 | What was written is a prefix of what was taken. |
| `TraceSpec.FinIsLast` | TcpConnection.cc:92-106 | The write side ends at most once, only while disconnecting, with everything taken written; nothing is taken or written after. |
| `TraceSpec.StateMovesForward` | TcpConnection.h:71-77 | The state only moves forward along a trace. |
| `TraceSpec.QuietBefore` | TcpConnection.cc:239-246 | Before the up notification nothing is sent, written or read. |
| `TraceSpec.UpExactlyOnce` | TcpConnection.cc:239-246 | The up notification comes exactly once. |
| `TraceSpec.CompletionIsTruthful` | TcpConnection.cc:193-197 | Whenever the trace notes a write-complete, everything taken has been written. |
| `TraceSpec.CompletionFollows` | TcpConnection.cc:92-101 | In the trace a write-complete follows at once each time the last owed byte is written, if the callback is set. |
| `TraceSpec.QueuedCompletionIsTruthful` | TcpConnection.cc:92-101 | Every write-complete functor among those a trace queues was queued when everything taken had been written. |
| `TraceSpec.EmptyingQueuesCompletion` | TcpConnection.cc:92-101 | Each time the last owed byte is written, a write-complete functor is the next one queued, if the callback is set. |
| `TraceSpec.HighWatersQueued` | TcpConnection.cc:217-228 | The high-water functors a trace queues are those of its upward crossings, in order and with their sizes. |
| `TraceSpec.HighWaterIsCrossing` | TcpConnection.cc:217-228 | In the trace high-water notes follow exactly the upward crossings and carry the backlog at that moment. |
| `TraceSpec.HighWaterCounts` | TcpConnection.cc:217-228 | As many high-water notes in the trace as upward crossings. |
| `TraceSpec.FellBetweenCrossings` | TcpConnection.cc:220-226 | Between two high-water notes under one mark the backlog fell below it. |
| `ConnTheorems.UseAllGood` | TcpConnection.cc:153-278 | Whole callbacks keep what their operations keep, and queue nothing but notifications. |
| `ConnTheorems.WriteInterestIsExact` | TcpConnection.cc:186-235 | The kernel's mask holds EPOLLOUT if and only if the output buffer is not empty. |
| `ConnTheorems.DrainAllKeeps` | TcpConnection.cc:80-113 | Any series of EPOLLOUT events keeps every promise. |
| `ConnTheorems.DrainTakesWhatFits` | TcpConnection.cc:80-113 | Any series of EPOLLOUT events takes exactly what there was room for, in order. |
| `ConnTheorems.DrainFinishes` | TcpConnection.cc:80-113 | Once there was room for all, everything is written, write interest is off in the kernel, and a delayed shutdown has happened. |
| `ConnTheorems.ProgressSuffices` | TcpConnection.cc:89-92 | Writing at least one byte each time, no more events are needed than bytes. |
| `ConnTheorems.HandleCloseGood` | TcpConnection.cc:121-132 | Closing, with whatever the user's callback does, keeps every promise and counts one down and one removal. |
| `ConnectionRuns.Serve` | TcpConnection.cc:57-278 | From birth, through any run of calls and events on the objects: what the socket sent followed by the output buffer is what was taken, what the user used followed by the input buffer is what was read, and the write side is shut down at most once with nothing left to send. |
| `ConnectionRuns.TakeTurn` | TcpConnection.cc:57-278 | One call or one dispatch on the objects keeps every promise. |
| `ConnTheorems.HandleReadGood` | TcpConnection.cc:57-77 | Reading keeps every promise, and closes exactly at the end of the stream. |
| `ConnTheorems.DispatchDowns` | Channel.cc:69-104 | One dispatch keeps every promise for every mask; it takes the connection down once for a hang-up and once for a read that finds the end. |
| `ConnTheorems.DownOncePerDispatchIff` | Channel.cc:72-94 | One dispatch closes at most once, whatever kernel and user do, if and only if the mask is not a hang-up with PRI and without IN. |
| `ConnTheorems.ClosesTwice` | Channel.cc:72-94 | The mask {HUP, PRI} with a read that finds the end closes twice and queues connectDestroyed twice. |
| `ConnTheorems.ShutdownElsewhereOnceIff` | TcpConnection.cc:261-278 | A shutdown called by another thread, its queued half running after any write events, shuts the write side down once if nothing was waiting, not at all if something still is, and twice if everything was written meanwhile. |
| `ConnTheorems.SendInLoopKeepsIff` | TcpConnection.cc:173-236 | In every state, sendInLoop keeps a message whole if and only if the connection has not closed and either something waits or is being written, or the kernel does not answer EPIPE or ECONNRESET; otherwise all of it is lost and nothing else changes. |
| `ConnTheorems.LateSendIsLostIff` | TcpConnection.cc:159-207 | On a connection that has run shutdown to its end, a queued message is dropped whole if and only if the write side is already shut down, which it is if and only if nothing waits; otherwise it is kept behind what waits. |
| `ConnTheorems.FlaggedSendIsLostIff` | TcpConnection.cc:159-268 | While the queued half of a foreign shutdown is still to run, a queued message is lost if and only if nothing waits and the kernel answers EPIPE or ECONNRESET. |
| `ConnEffects.SendEffect` | TcpConnection.cc:153-236 | While nothing waits, a message goes to the kernel as far as there is room and the rest is kept; while something waits, all of it is kept behind; only a broken connection loses it. |
| `ConnEffects.OnlyWhileConnected` | TcpConnection.cc:153-166 | In any state but connected, send and shutdown change nothing. |
| `ConnEffects.ShutdownEffect` | TcpConnection.cc:261-278 | From connected, the state is disconnecting, and the write side is shut down at once if and only if nothing waits; no byte is touched. |
| `ConnEffects.ShutdownCompletes` | TcpConnection.cc:80-113 | With room enough for what waits, a shutdown is followed by the end of the stream, once, after everything taken. |
| `ConnEffects.WriteEffect` | TcpConnection.cc:80-119 | A write event moves from the front of what waits to the kernel exactly what it has room for; with nothing moved nothing changes. |
| `ConnEffects.ReceiveEffect` | TcpConnection.cc:57-66 | Bytes from the peer join the end of the input; nothing else changes. |
| `ConnEffects.RetrieveEffect` | Buffer.h:55-67 | The user's retrieve takes the given number of bytes from the front of the input, or all; nothing else changes. |
| `ConnEffects.SetMarkEffect` | TcpConnection.h:55-59 | The mark is the one given; nothing else changes. |
| `ConnEffects.UseAllInOrder` | TcpConnection.cc:65 | The operations of a callback run from the first to the last. |
| `ConnEffects.ReadEffect` | TcpConnection.cc:57-77 | A read that finds bytes adds them to what is unread and then runs the message callback's operations; all that was read is used or left. |
| `ConnEffects.DispatchEffect` | Channel.cc:69-104 | For every mask that does not end the connection: read and run the callback, then write what fits of what then waits. |
| `ConnEffects.DispatchWrites` | Channel.cc:96-103 | A dispatch of EPOLLOUT moves exactly what fits from the buffer to the kernel. |
| `ConnEffects.DispatchReadsThenWrites` | Channel.cc:88-103 | A dispatch of EPOLLIN and EPOLLOUT receives the bytes, runs the callback, and only then writes. |
| `ConnEffects.CloseLeavesKernel` | TcpConnection.cc:121-125 | An open connection that goes down is out of the kernel's set, its index kDeleted. |
| `ConnEffects.CloseEffect` | TcpConnection.cc:121-132 | The user is told and acts with the connection already down; then, last, the server forgets it and its end is queued. |
| `ConnEffects.EstablishEffect` | TcpConnection.cc:239-246 | Connected and in the kernel's set for reading before the user's callback runs. |
| `ConnEffects.DestroyEffect` | TcpConnection.cc:249-258 | A still connected connection goes down and its user acts; then, last, the channel leaves map and kernel. |
| `Naming.DecimalInjective` | TcpServer.cc:71 | Different counters print differently. |
| `Naming.NamesDiffer` | TcpServer.cc:70-75 | Different counters in int range give different names, for every address and port of up to 51 characters; the IPv4 ones the server prints have at most 21. |
| `Naming.NamesDifferIff` | TcpServer.cc:70-75 | How far the 64-byte buffer reaches: names are pairwise different over the whole range of the counter if and only if address and port take at most 51 characters. |
| `ServerProofs.StepInv` | Eventloop.cc:85-106 | Every step of the single-loop server, user code included, keeps one invariant: agreement, promises of every connection, ownership, map, distinct descriptors, no missed wake-up. |
| `ServerProofs.CloseStepInv` | TcpConnection.cc:121-129 | A close in the middle of a dispatch keeps the invariant. |
| `ServerProofs.ForgetInv` | TcpServer.cc:107-119 | Forgetting a connection and queueing its end keeps the invariant. |
| `ServerProofs.DestroyStepInv` | TcpConnection.cc:249-258 | The end of connectDestroyed keeps the invariant. |
| `ServerProofs.AcceptInv` | TcpServer.cc:65-105 | A new connection on a descriptor the kernel had free keeps the invariant. |
| `ServerTheorems.ReachableStep` | Eventloop.cc:85-106 | An enabled step is always defined and leads to a reachable state. |
| `ServerTheorems.RegisteredIsHeld` | TcpServer.cc:91-119 | Every channel in the poller belongs to a connection held by the map, by the event being handled, or by a connectDestroyed not yet finished, with its descriptor open. |
| `ServerTheorems.NothingDangles` | Channel.cc:53-67 | No event or functor ever meets a freed connection; every channel still waiting in the active list belongs to an open connection of the map. |
| `ServerTheorems.FreedAfterRemoval` | EPOLLPoller.cc:73-85 | A connection is freed and its descriptor closed only after removeChannel; a free descriptor is in neither map nor kernel. |
| `ServerTheorems.ClosedIsDestroyedBeforePolling` | TcpServer.cc:112-119 | A connection that closed is destroyed and deregistered by the time the loop polls again. |
| `ServerTheorems.MapIsExact` | TcpServer.cc:91-119 | Between events and tasks the map holds exactly the open connections, each under its own name. |
| `ServerTheorems.InsertIsFresh` | TcpServer.cc:93 | An insert never overwrites. |
| `ServerTheorems.EveryConnectionKeepsItsPromises` | TcpConnection.cc:80-278 | In every reachable state, every connection ever accepted has its output and input streams exact, its end of stream at most once and last, one up notification, and the kernel's mask exact. |
| `ServerTheorems.NeverPollsOnQueuedWork` | Eventloop.cc:139-198 | Whoever queues tasks, this thread or others, the server never polls with work queued, a zero counter and no wake-up owed; and poller, kernel and channels agree at every moment. |
| `ServerEffects.DispatchRun` | Channel.cc:53-104 | The first reported event can be dispatched to its end, and the connection is then as the dispatch as a whole leaves it, for every mask, answer and callback. |
| `ServerEffects.TaskBegins` | Eventloop.cc:192-195 | The first functor of the batch is begun, and its code is then the user's to run. |
| `ServerEffects.EndRun` | TcpConnection.cc:249-258 | The end of a connection, from its first step to its last, is connectDestroyed of that connection. |
| `ServerEffects.AcceptRun` | TcpServer.cc:65-105 | Any free descriptor can be accepted; the connection is in the map under its name and as connectEstablished leaves it, and no other is touched. |
| `ServerEffects.TeardownRun` | TcpServer.cc:37-48 | The destructor takes a connection out of the map and ends it as connectDestroyed does. |
| `ServerEffects.DestructorRun` | TcpServer.cc:37-48 | The destructor can empty the map, whatever it held. |
| `ServerEffects.TurnRun` | Eventloop.cc:85-106 | Whatever is reported, the turn of the loop can be completed: events dispatched, everything queued by then run, and back to poll. |
| `ServerEffects.ReadStepEffect` | Channel.cc:88-94 | The read branch adds the bytes on offer to the input and hands over to the message callback. |
| `ServerEffects.WriteStepEffect` | Channel.cc:96-103 | The write branch moves what fits to the kernel and ends the dispatch. |
| `ServerEffects.OpenIsReported` | EPOLLPoller.cc:116-164 | Poll may report of an open connection whatever it asked for, and it asks for room if bytes wait. |
| `ServerEffects.WaitingBytesAreWritten` | TcpConnection.cc:80-113 | From poll, the loop can bring as many waiting bytes to the peer as there is room for. |
| `ServerEffects.ForeignQueueIsPushThenWake` | Eventloop.cc:139-152 | Another thread's queueInLoop is its two steps. |
| `ServerEffects.FreeRun` | TcpServer.cc:112-119 | A destroyed connection named by no task can be freed, and its descriptor closed. |
| `TaskHistory.SendTells` | TcpConnection.cc:153-236 | A send puts into the loop's queue exactly the functors its trace notes, in order: write-complete, high-water with its size, or none. |
| `TaskHistory.HandleWriteTells` | TcpConnection.cc:80-119 | So does a write event. |
| `TaskHistory.UseAllTells` | TcpConnection.cc:153-278 | So does a whole user callback. |
| `TaskHistory.HandleEventTells` | Channel.cc:69-104 | So does a whole dispatch, for every mask, kernel and user. |
| `TaskHistory.TasksStep` | Eventloop.cc:139-198 | Every step of the server keeps the history of each connection's functors equal to what its trace noted. |
| `TaskHistory.EveryTaskOnceInOrder` | Eventloop.cc:139-198 | In every reachable state, the functors of a connection begun, in the batch and pending are together exactly those its trace noted, each once and in order. |
| `TaskHistory.UserTasksOnceInOrder` | Eventloop.cc:139-198 | Over every run, the user's own tasks begun, in the batch and pending are together those its steps queued, from whichever thread, each once and in order. |
| `TaskHistory.HighWaterTasksAreCrossings` | TcpConnection.cc:217-228 | In every reachable state, the high-water functors run, in the batch and pending are exactly those of the upward crossings, in order and with their sizes. |
| `TaskHistory.CompletionTasksAreTruthful` | TcpConnection.cc:92-101 | In every reachable state, each write-complete functor run, in the batch or pending was queued when everything taken had been written, and each emptying queued one, next. |
| `Lifecycle.StatesMoveForward` | TcpConnection.cc:239-268 | Over every run of the server no connection goes back to an earlier state. |
| `Lifecycle.CalmRunsKeepInv` | Channel.cc:69-104 | Runs whose reports cannot close twice keep the counts of downs, removals and ends exact. |
| `TraceSpec.DisconnectedIffTold` | TcpConnection.cc:121-132 | A connection is disconnected if and only if its user was told that it went down. |
| `Lifecycle.DestroyedUntoldIff` | TcpConnection.cc:249-258 | Over every run, a destroyed connection's user was not told if and only if it was shutting down at that moment. |
| `Lifecycle.TeardownTellsIffConnected` | TcpServer.cc:37-48 | The destructor tells the user of exactly the connections still connected. |
| `Lifecycle.DownAndDestroyedOnce` | TcpConnection.cc:121-258 | Over those runs a connection goes down exactly when it becomes disconnected, is removed at most once, and connectDestroyed runs at most once, counting those queued. |
| `HangupRuns.EndsOnceIffCalm` | Channel.cc:72-94 | After any such run, the next report keeps every connection from going down twice in all such runs to come, if and only if no mask in it is a hang-up with PRI and without IN. |

## Left out

- Worker loops: with `numThreads_ > 0` the connection is built on one loop and brought up by another (`TcpServer.cc:91, 104`); the server is modelled with none.
- Calls from other threads: a foreign `send` passes a pointer into the caller's string without copying it (`TcpConnection.cc:163`); the bytes then read are not modelled. What else goes wrong with foreign calls is in the lemmas named above. `Server` has other threads queue tasks of the user's own, and nothing else.
- `EventLoop::loop` as one method: it is the cycle of steps in `WakeupProtocol` and `Server`. The object model has its parts. A second `loop()` after the first has returned is not part of `Server`, and `WakeupProtocol` starts after quit is reset, so a quit before that is lost, as in the code.
- The server's destructor as a method: its loop over the map is the `Teardown` steps of `Server`.
- Buffers.Buffer.RetrieveAsString: only for lengths within the readable bytes; beyond them the code copies bytes that are not in the queue, and for a length past the array undefined ones, which the model does not describe.
- Connections.TcpConnection.Callback: on objects a callback acts on its own connection only; in `Server` callbacks may use any connection they hold.
- Connections.TcpConnection.Send: the message is at most INT_MAX bytes long, since `sendInLoop` takes an `int` length.
- Connections.TcpServer.NewConnection: the counter is below INT_MAX; the code does not guard against its overflow.
- Lifecycle.DownAndDestroyedOnce: only for runs without a hang-up with PRI and without IN, since it is false of the others; `HangupRuns.EndsOnceIffCalm` says how exact this is.
- Reactor.EPOLLPoller.FillActiveChannels: the reported channels are distinct, as `epoll_wait` reports them.
- The write-complete callback is set or not for the life of a connection; the high-water callback and mark may change at any time. The connection, message and close callbacks are set.
- User code that calls `connectEstablished` or `connectDestroyed` itself, although they are public.
- The listening socket's and the eventfd's own channels: accepting and reading the counter are steps of the machine.
- SIGPIPE: a write to a broken connection is answered with EPIPE; the signal that comes with it by default is not modelled.
- `handleError`, logging, timestamps, socket options, address formatting: they change nothing the model speaks of.
- Failures of `epoll_ctl` other than by misuse, the process ending at a fatal log, and failures of `epoll_wait`; doubling the event list.
- Reference counts: who holds a connection is a predicate over map, tasks and the event being handled; references kept by users only delay the moment of freeing.
- Event masks are sets of the five flags the code looks at; array sizes and indices do not wrap around.
- Memory ordering of atomics: steps are sequentially consistent.
