# A verified model of mini_muduo

mini_muduo is a reactor network library: event loops that poll descriptors and run queued
functors, a timer queue on a timerfd, TCP connections with input and output buffers, and a server
that spreads connections over I/O loops. This project models its stateful core in Dafny and
proves what that core keeps over whole runs. `dafny verify dfyconfig.toml` checks all of it.

## How the model is built

Most parts exist in two forms. A state machine gives every handler as a function from state to
state and every event as a step; the theorems are about all its runs (`Behaviors.dfy` holds the
one induction principle they share). A class has the source's fields and updates them in place;
each of its methods promises that the new state is the one the state machine gives, so the
theorems hold of the class. The buffer has no state machine: its methods are specified directly
on the byte sequence it stands for. The loop's queue and the server are state machines only: they are
what threads share, and a run is an interleaving of them.

| files | part |
|---|---|
| `Buffer.dfy` | the byte buffer: one array, two indexes, growth and compaction |
| `ConnectionModel.dfy`, `TcpConnection.dfy` | sending, partial writes, half-close, closing, echo |
| `EventLoop.dfy` | the task queue, the eventfd, `quit`, with any number of posting threads |
| `TimerModel.dfy`, `TimerProofs.dfy`, `TimerTheorems.dfy`, `TimerPunctual.dfy`, `TimerQueue.dfy` | timers at reusable addresses, re-entrant callbacks, the timerfd |
| `PollerModel.dfy`, `EPollPoller.dfy` | channel registration against the kernel's interest set |
| `ServerModel.dfy`, `ServerProofs.dfy`, `ServerSteps.dfy`, `ServerTheorems.dfy` | connection lifetimes across loops, each loop with its own poller |
| `ServerCallbacks.dfy`, `ServerEvents.dfy` | how often the connection callback reports a connection down |
| `ServerChannels.dfy`, `ServerProgress.dfy`, `ServerReclaim.dfy` | what a connection's channel listens for, and that connections come up, are handled, get out of the server and are destroyed |
| `ServerWorkers.dfy`, `ServerTasks.dfy`, `ServerLatePosts.dfy`, `ServerStray.dfy` | threads outside the loops that call `send` and `shutdown`, and when the tasks they post are safe |

The environment is nondeterministic. A write takes any number of bytes up to what was offered, or
fails with any errno; a read delivers any bytes the offered room allows, end of stream, or an error;
epoll reports any registered channels with any reportable masks; poll may also return for no reason;
the allocator may reuse any freed address; time advances at will; every interleaving of
the loop threads and posting threads at lock, flag and eventfd accesses is a run.

## Where the code does less than one might expect

The code is modelled as it is. Where it breaks an expected property, the exact condition is proved.

- A functor that the loop's own thread queues before `loop()` gets no wakeup and waits for the poll
  timeout unless somebody else wakes the loop first (`EventLoops.EarlyPushSleeps`, from every such state).
  It happens in the first round only, and `EventLoops.NoLostWakeup` holds for every other functor.
- A `send` or `shutdown` called off the loop's thread posts a task bound to a raw `this`. That task is the
  only thing that can follow a pointer to a destroyed connection (`ServerWorkers.OnlyStrayTasksCrash`), and
  it does in the run of `ServerStray.StrayRun`. The state of the queue at the post decides: however early
  callers let go, the task is safe if the connection's teardown has not been swapped out yet
  (`ServerTasks.TasksPostedInTimeAreSafe`), and it can go astray if and only if neither the map, nor a
  removal still due, nor a functor waiting in the same queue owns the connection
  (`ServerLatePosts.PostExactly`). A caller that posts too late is safe if it keeps its pointer until its
  task has run (`ServerTasks.NoUseAfterFree`); letting go of the last pointer can cause a crash if and only
  if the task has not run yet (`ServerWorkers.ReleaseExactly`).
- Such a deferred `send` also writes after SHUT_WR if that has been issued by the time it runs
  (`ConnectionModel.DeferredSendOrder`), and a deferred `shutdown` issues SHUT_WR a second time when the
  output drains before its task runs, or with bytes left over when the connection closes before then
  (`ConnectionModel.DeferredShutdownOrder`). `ConnectionModel.DeferredSendAfterShutdown` and
  `ConnectionModel.ShutdownTwice` give the runs; over a whole run the order of the half-close holds exactly
  when none of this has happened (`ConnectionModel.HalfCloseExactly`).
- A `cancel` that reaches the loop before the add of its timer has no effect, and that is the only
  case in which cancelling a live timer is lost (`TimerTheorems.CancelRegisters`).
- Registering, updating or removing a channel whose descriptor another registered channel uses
  breaks the poller's table, and nothing else does (`PollerModel.SetEventsSimulates`,
  `PollerModel.RemoveSimulates`).
- One event runs both the close and the read callback exactly when its mask has HUP without IN but
  with PRI or RDHUP. If the read then finds end of stream, the connection is reported down twice:
  `ServerEvents.DownTwice` gives a run, and `ServerEvents.DownsExactly` says that over a whole run no
  connection is reported down twice if and only if no such read has happened. The second `disableAll` finds
  the channel in index kDeleted and re-adds it with an empty mask (`src/net/EPollPoller.cc:84-90`); the
  lifetime theorems cover those runs too.
- An echo server that reads in the same event that closed the connection does not echo what it read;
  `ConnectionModel.EchoEndToEnd` has that in its exact condition.

## Model

| member | source | states |
|---|---|---|
| Buffers.Buffer.constructor | src/net/Buffer.cc:12-17 | a new buffer is empty, with 8 reserved bytes before the initial size |
| Buffers.Buffer.ReadableBytes | src/net/Buffer.cc:19-22 | the readable count is the length of the byte sequence the buffer stands for |
| Buffers.Buffer.Peek | src/net/Buffer.cc:34-37 | `peek` shows the head of that sequence |
| Buffers.Buffer.Retrieve | src/net/Buffer.cc:39-46 | takes exactly the first bytes off, all of them when asked for more; an emptied buffer restarts at the reserve |
| Buffers.Buffer.RetrieveAll | src/net/Buffer.cc:48-52 | empties the buffer and puts both indexes back to the reserve |
| Buffers.Buffer.RetrieveAllAsString | src/net/Buffer.cc:54-57 | returns everything readable and leaves nothing |
| Buffers.Buffer.RetrieveAsString | src/net/Buffer.cc:59-66 | what is returned followed by what is left is the old contents, and as much is returned as was asked for and there |
| Buffers.Buffer.Append | src/net/Buffer.cc:68-73 | adds exactly the data at the tail; storage never shrinks and stays within max(8 + initialSize, 2 * peak + 8), for the largest readable length ever reached or asked room for |
| Buffers.Buffer.CopyIn | src/net/Buffer.cc:68-73 | the copy fills the write position and disturbs no readable byte |
| Buffers.Buffer.EnsureWritableBytes | src/net/Buffer.cc:80-85 | afterwards the room is there, contents unchanged; nothing moves if it was there before; a new storage is strictly larger; what was asked for counts towards the peak of the capacity bound |
| Buffers.Buffer.MakeSpace | src/net/Buffer.cc:113-123 | contents unchanged and room made, by compaction if and only if the free space suffices, then with the reader strictly further left, otherwise by strict growth to exactly what is needed |
| Buffers.Buffer.Grow | src/net/Buffer.cc:115-116 | growth is strict, to exactly what is needed, keeps the contents and the capacity bound |
| Buffers.Buffer.SlideLeft | src/net/Buffer.cc:119-119 | the overlapping forward copy moves the readable bytes intact, because the move is strictly leftward |
| Buffers.Buffer.ReadFd | src/net/Buffer.cc:125-151 | a two-segment read adds exactly the bytes read at the tail, whichever segment they came through, an error adds nothing; the capacity bound holds |
| ConnectionModel.SendKeepsStream | src/net/TcpConnection.cc:216-254 | for every write result, bytes on the wire followed by buffered bytes stay the concatenation of kept messages |
| ConnectionModel.WriteKeepsStream | src/net/TcpConnection.cc:164-189 | draining by any partial write keeps that equation |
| ConnectionModel.StepKeepsStream | src/net/TcpConnection.cc:71-263 | every handler and call, the deferred halves of cross-thread calls included, keeps the stream equation |
| ConnectionModel.StepKeepsInv | src/net/TcpConnection.cc:71-263 | every one of them but a late deferred task keeps exact write interest and the half-close order too |
| ConnectionModel.OutputStreamIntegrity | src/net/TcpConnection.cc:164-254 | at every moment of every run, calls of other threads included: wire bytes followed by the output buffer are the kept messages in order |
| ConnectionModel.DeferredHalfClose | src/net/TcpConnection.cc:164-263 | in runs without a late deferred task: until disconnected, write interest holds exactly when output is buffered; SHUT_WR is the last entry of the log, so at most once and with no write after it, and only when everything kept is on the wire; it has been issued once half-closed and drained with no task outstanding |
| ConnectionModel.MovesForward | src/net/TcpConnection.cc:88-204 | the connection state never goes back, and the I/O log and the calls made only grow |
| ConnectionModel.FaultDropsWhole | src/net/TcpConnection.cc:216-254 | on any connection not yet closed, deferred sends included: a message met by EPIPE or ECONNRESET leaves no byte on the wire or in the buffer, and every other message enters the stream whole |
| ConnectionModel.CompletesExactly | src/net/TcpConnection.cc:164-254 | over every run, calls of other threads included: the write-complete callback is queued right after a write that left nothing buffered, after every such write and after no other |
| ConnectionModel.SilentOnceClosed | src/net/TcpConnection.cc:191-254 | over every run: once disconnected a connection stays so, neither reads nor writes, puts no further byte on the wire and takes on no message |
| ConnectionModel.CallsInOrder | src/net/TcpConnection.cc:116-204 | over every run in which events are dispatched while the channel is registered: the connection callback comes first, once; each close callback directly follows a report of the connection being down; nothing is called after the channel's removal; the connection is down exactly when that has been reported, and the channel reads exactly while it is up |
| ConnectionModel.ReadResults | src/net/TcpConnection.cc:147-162 | a read error changes nothing, end of stream is a close, and data goes to the tail of the input and calls the message callback |
| ConnectionModel.ReadCloses | src/net/TcpConnection.cc:147-162 | on a connection not yet closed: a read takes it down, and calls the close callback, if and only if it finds end of stream; it calls the message callback if and only if it brings data |
| ConnectionModel.DeferredSendOrder | src/net/TcpConnection.cc:71-86 | in any orderly state: a send posted from another thread keeps the half-close order if and only if SHUT_WR has not been issued on the open connection when it runs |
| ConnectionModel.DeferredShutdownOrder | src/net/TcpConnection.cc:88-94 | in any orderly state: the task of a cross-thread shutdown keeps the order if and only if write interest stands, or nothing is left to write and SHUT_WR has not been issued |
| ConnectionModel.HalfCloseExactly | src/net/TcpConnection.cc:71-94 | over every run with any calls of other threads: the half-close order holds if and only if none of their tasks came late |
| ConnectionModel.DeferredSendAfterShutdown | src/net/TcpConnection.cc:71-94 | a concrete run from the start in which a deferred send writes after SHUT_WR |
| ConnectionModel.ShutdownTwice | src/net/TcpConnection.cc:88-94 | a concrete run from the start in which a cross-thread shutdown issues SHUT_WR twice |
| ConnectionModel.EchoReadSends | examples/echo_server.cc:25-28 | read, retrieve and send compose to the send of exactly what was read |
| ConnectionModel.EchoReadKeeps | examples/echo_server.cc:25-28 | the echo callback leaves the input buffer empty and, unless the connection has closed, puts everything read on offer |
| ConnectionModel.StreamIsOffered | src/net/TcpConnection.cc:240-253 | the kept stream equals everything offered if and only if no message was dropped |
| ConnectionModel.OfferedExactly | examples/echo_server.cc:25-28 | over every echo run everything read was offered back if and only if no step read after the close |
| ConnectionModel.EchoEndToEnd | examples/echo_server.cc:25-28 | over every echo run the input buffer is empty between events, and wire bytes plus buffered output equal all bytes ever read if and only if no write was faulted and no step read after the close |
| TcpConnections.TcpConnection.ConnectEstablished | src/net/TcpConnection.cc:116-125 | the object becomes connected and reading and calls the connection callback, as the state machine says |
| TcpConnections.TcpConnection.ConnectDestroyed | src/net/TcpConnection.cc:127-140 | refines the teardown: a connection that is still connected is disabled and reported down, without the close callback; the channel is removed last, in either case; the invariant is kept |
| TcpConnections.TcpConnection.HandleClose | src/net/TcpConnection.cc:191-204 | refines closing: disconnected, no interest, then the connection callback and the close callback; buffers and log untouched; the invariant is kept |
| TcpConnections.TcpConnection.GoDown | src/net/TcpConnection.cc:191-200 | the part closing and teardown share: disconnected, all interest off, the connection callback told, and last the close callback of a close or the channel's removal of a teardown |
| TcpConnections.TcpConnection.HandleRead | src/net/TcpConnection.cc:147-162 | in the fields of the object: end of stream leaves it disconnected, neither reading nor writing, with the down report and the close callback added and both buffers as they were; an error changes state, interest, calls and both buffers in nothing; data is added to the tail of the input and adds one message callback; the invariant is kept |
| TcpConnections.TcpConnection.SendInLoop | src/net/TcpConnection.cc:216-254 | the code over two real buffers refines the send of the state machine, for every write result; it always keeps the stream equation, and the half-close order unless SHUT_WR has been issued on the open connection |
| TcpConnections.TcpConnection.SendDirectly | src/net/TcpConnection.cc:228-253 | with nothing buffered and no write interest: what the direct write took is logged, the rest is buffered unless the write met EPIPE or ECONNRESET |
| TcpConnections.TcpConnection.WriteNow | src/net/TcpConnection.cc:228-245 | the direct write takes what the kernel took, logs it, and faults exactly on EPIPE and ECONNRESET |
| TcpConnections.TcpConnection.QueueOutput | src/net/TcpConnection.cc:247-253 | what remains is appended and write interest raised, and only when something remains |
| TcpConnections.TcpConnection.Send | src/net/TcpConnection.cc:71-86 | refines a loop-thread send, ignored unless connected; the stream and half-close invariant is kept |
| TcpConnections.TcpConnection.ShutdownInLoop | src/net/TcpConnection.cc:256-263 | refines the half-close, deferred while write interest stands |
| TcpConnections.TcpConnection.Shutdown | src/net/TcpConnection.cc:88-94 | refines the user's shutdown, which acts only when connected, and half-closes at once on the loop's thread and by a task on another; the invariant is kept |
| TcpConnections.TcpConnection.RunPosted | src/net/TcpConnection.cc:256-263 | refines that task; the invariant is kept unless it comes late |
| TcpConnections.TcpConnection.HandleWrite | src/net/TcpConnection.cc:164-189 | refines draining: exactly the bytes taken leave the buffer's head, an error or a count of zero leaves it alone; the invariant is kept |
| TcpConnections.TcpConnection.WriteOut | src/net/TcpConnection.cc:169-173 | what is logged as written is the head of the buffer, and exactly that is retrieved |
| TcpConnections.TcpConnection.Drained | src/net/TcpConnection.cc:174-182 | refines the end of draining: interest off, completion queued, pending half-close issued, in that order |
| TcpConnections.TcpConnection.EchoOnReadable | examples/echo_server.cc:25-28 | read, retrieve and send composed over the real buffers refine one echo step |
| EventLoops.StepKeepsCover | src/net/EventLoop.cc:54-101 | at every lock, flag and eventfd access, queued work and quit requests stay covered by a wakeup done or due |
| EventLoops.NoLostWakeup | src/net/EventLoop.cc:54-101 | whenever the loop is at poll with work queued, the eventfd is positive or a poster is between push and wakeup, unless the loop thread queued before `loop()` |
| EventLoops.EarlyPushSleeps | src/net/EventLoop.cc:91-101 | every run up to a loop that has not started and that nobody has woken extends to one in which a functor queued by the loop thread waits at poll with no wakeup |
| EventLoops.EarlyOnlyFirstRound | src/net/EventLoop.cc:165-180 | after any swap that exception can never arise again |
| EventLoops.ExactlyOnceFifo | src/net/EventLoop.cc:91-180 | functors run, the rest of the batch and the pending ones are together all pushes in mutex order |
| EventLoops.NextSwaps | src/net/EventLoop.cc:165-173 | the batch of a round is exactly what was pending at its swap |
| EventLoops.RoundRunsSnapshot | src/net/EventLoop.cc:165-180 | a round runs exactly the functors pending at its swap, in order, whatever is pushed meanwhile, one call for each |
| EventLoops.QuitEndsLoop | src/net/EventLoop.cc:54-80 | after a quit made in a running loop poll returns at most once more, and cannot block with the request standing and no wakeup done or due |
| EventLoops.QuitStands | src/net/EventLoop.cc:54-80 | the request stays set, and after that one return the loop is not at poll again |
| EventLoops.StepSignals | src/net/EventLoop.cc:54-101 | a push adds exactly its functor; quit is raised by quit calls and by nothing else, and lowered when `loop()` starts; wakeups leave the eventfd positive and only they raise it; only reading it lowers it, to zero; functors are run by the round alone |
| EventLoops.ExitsOnlyOnQuit | src/net/EventLoop.cc:54-80 | over every run: `loop()` has returned only if a quit request stands |
| EventLoops.PendingRuns | src/net/EventLoop.cc:54-68 | from every reachable state of a loop that runs and is not asked to quit, some path of its own steps runs everything that has been pushed, and it has not returned |
| EventLoops.QuitLeaves | src/net/EventLoop.cc:54-80 | from every reachable state of a running loop that is asked to quit, its own steps lead to its return |
| EventLoops.LoopGetsOn | src/net/EventLoop.cc:54-80 | both over every run: what has been pushed can still run while nobody has asked to quit, and the loop returns when somebody has |
| EventLoops.LoopRests | src/net/EventLoop.cc:54-101 | over every run: when nobody posts any more, a loop not asked to quit comes to poll with an eventfd that is not readable and all work done, so it does not spin |
| TimerProofs.StepSound | src/net/TimerQueue.cc:104-206 | every step keeps single ownership, agreement of the indexes, and the batch's identities |
| TimerProofs.StepCancels | src/net/TimerQueue.cc:126-192 | every step keeps: a cancelled timer is freed or marked in the batch, and nothing else is freed but one-shot timers that ran |
| TimerProofs.StepRuns | src/net/TimerQueue.cc:142-192 | every step keeps the spacing of a timer's runs by its interval |
| TimerProofs.StepNotStranded | src/net/TimerQueue.cc:55-206 | every step keeps the timerfd armed in time for the earliest timer between events |
| TimerTheorems.OwnershipPartition | src/net/TimerQueue.cc:104-206 | every timer ever created is in exactly one of queued-for-add, the timer list, the running batch, freed; no freed timer is touched or deleted again |
| TimerTheorems.IndexesAlwaysAgree | src/net/TimerQueue.cc:126-206 | at every step boundary both indexes hold the same timers, one entry each, keyed by current expiration and sequence |
| TimerTheorems.StaleCancelIsHarmless | src/net/TimerQueue.cc:126-140 | a handle whose timer is gone cancels nothing, even when its address now holds a newer timer |
| TimerTheorems.CancelRegisters | src/net/TimerQueue.cc:126-140 | cancelling a live timer takes effect if and only if its add has already run |
| TimerTheorems.RunExtends | src/net/TimerQueue.cc:142-192 | over any stretch of a run, histories only grow and no timer freed before it runs in it |
| TimerTheorems.CancellationHolds | src/net/TimerQueue.cc:126-192 | a cancelled timer never runs once the batch current at the cancel is over, even if it repeats and cancelled itself |
| TimerTheorems.FreedExactly | src/net/TimerQueue.cc:142-192 | between events a timer is gone if and only if it was cancelled, or was one-shot and ran; any other is still queued for add or in the list, and one that has run repeats and is back in the list |
| TimerTheorems.RunsAreSpaced | src/net/Timer.cc:38-45 | two runs of one timer: it repeats and its batch times are at least its microsecond interval apart, so a one-shot runs at most once |
| TimerTheorems.NoTimerStranded | src/net/TimerQueue.cc:116-206 | between events, with a timer pending, the timerfd is armed for no later than max(its expiration, arm time + 100 us) |
| TimerPunctual.NewRecords | src/net/Timer.cc:9-16 | a new timer holds the time, interval and repetition asked for, under the next number, and goes on record with them |
| TimerPunctual.RunsNotEarly | src/net/TimerQueue.cc:142-192 | over every run: no timer runs before the time it was asked for |
| TimerPunctual.ListedOnTime | src/net/TimerQueue.cc:116-192 | over every run: a timer in the list is due exactly at the time it was asked for as long as it has not run, and afterwards exactly its interval after its last batch |
| TimerQueues.HowMuchTimeFromNow | src/net/TimerQueue.cc:31-43 | the timespec is well formed, never the disarming zero, and denotes max(distance, 100) microseconds exactly |
| TimerQueues.TimerQueue.Insert | src/net/TimerQueue.cc:194-206 | adds one entry to each index in order, and reports a new earliest exactly when it is strictly before all others |
| TimerQueues.TimerQueue.ResetTimerfd | src/net/TimerQueue.cc:55-64 | arms the timerfd for max(distance, 100) microseconds from now |
| TimerQueues.TimerQueue.CreatedElsewhere | src/net/Timer.cc:7-16 | another queue's timers take numbers from the same process-wide counter, so numbers here may skip but never repeat |
| TimerQueues.TimerQueue.NewTimer | src/net/Timer.cc:9-16 | a new timer at any free address gets the time, interval and repetition asked for and the next number of the process-wide counter; no other timer changes |
| TimerQueues.TimerQueue.AddTimerInLoop | src/net/TimerQueue.cc:116-124 | refines the add step: one entry under its own expiration in each index, and the timerfd armed for it if and only if it is strictly before all others |
| TimerQueues.TimerQueue.CancelInLoop | src/net/TimerQueue.cc:126-140 | refines the cancel step: deleted from heap and both indexes, or remembered while a batch runs, or ignored |
| TimerQueues.TimerQueue.LowerBound | src/net/TimerQueue.cc:163-164 | the sentinel search finds exactly the entries due at `now`, including those due at that very instant |
| TimerQueues.TimerQueue.GetExpired | src/net/TimerQueue.cc:160-174 | splits the list: the expired part is ordered and due, the rest is later, and exactly the expired leave the active set |
| TimerQueues.TimerQueue.EraseActive | src/net/TimerQueue.cc:168-171 | the loop erases exactly the expired timers' identities |
| TimerQueues.ExpiredIsDue | src/net/TimerQueue.cc:160-174 | the split of the ordered list is the batch the state machine asks for |
| TimerQueues.TimerQueue.BeginBatch | src/net/TimerQueue.cc:142-151 | draining the timerfd and taking the due timers out is one batch step |
| TimerQueues.TimerQueue.RunCallback | src/net/TimerQueue.cc:152-154 | a callback adding and cancelling any timers makes a run of the state machine and leaves the batch alone |
| TimerQueues.TimerQueue.AddFromCallback | src/net/TimerQueue.cc:104-109 | `addTimer` on the loop thread is allocation followed at once by the add: the timer asked for is in both indexes afterwards |
| TimerQueues.TimerQueue.RunBatch | src/net/TimerQueue.cc:150-155 | every member of the batch runs exactly once, in order |
| TimerQueues.TimerQueue.ResetTimer | src/net/TimerQueue.cc:178-187 | refines the reset of one member: a repeating, uncancelled timer goes back with expiration exactly now + interval, any other is deleted |
| TimerQueues.TimerQueue.Rearm | src/net/TimerQueue.cc:189-191 | refines the end of the batch: armed for the earliest timer left, at least 100 us from now, or left alone if there is none |
| TimerQueues.TimerQueue.Reset | src/net/TimerQueue.cc:176-192 | resetting the whole batch is a run of the state machine that ends between events and runs nothing |
| TimerQueues.TimerQueue.HandleRead | src/net/TimerQueue.cc:142-158 | for any script of re-entrant callbacks: a run of the state machine in which exactly the timers due at entry run, each once, in order |
| PollerModel.SetEventsSimulates | src/net/EPollPoller.cc:79-99 | setting a mask keeps index, table and interest set in step if and only if no other registered channel has the descriptor |
| PollerModel.RemoveSimulates | src/net/EPollPoller.cc:101-110 | the same for removal, which then leaves the descriptor in neither table nor interest set |
| PollerModel.CreateKeeps | src/net/Channel.cc:27-43 | a new channel, in index kNew, leaves table and interest set in step |
| PollerModel.DestroyKeeps | src/net/EPollPoller.cc:101-110 | a channel in index kNew can be destroyed without leaving a pointer behind |
| PollerModel.CloseAndRead | src/net/Channel.cc:163-192 | one event runs both close and read callbacks if and only if its mask has HUP without IN and PRI or RDHUP |
| PollerModel.CallbacksMean | src/net/Channel.cc:163-192 | for every mask: close is called if and only if it has HUP without IN, error if and only if ERR, read if and only if IN, PRI or RDHUP, write if and only if OUT; each at most once, in that order |
| PollerRuns.PollerSimulatesKernel | src/net/EPollPoller.cc:79-138 | over any run with distinct descriptors: kAdded iff in the interest set with the channel's mask, kDeleted iff only in the table, kNew iff in neither; no ADD, MOD or DEL is refused |
| EPollPollers.Channel.constructor | src/net/Channel.cc:27-43 | a new channel has no interest and is registered nowhere; with a loop it is bound to that loop's poller, which stays in step with the kernel |
| EPollPollers.Channel.Destroy | src/net/Channel.cc:45-47 | a channel registered nowhere can go, and its poller stays in step with the kernel |
| EPollPollers.Channel.EnableReading | src/net/Channel.cc:74-78 | adds IN and PRI to the mask and tells the poller, if there is one |
| EPollPollers.Channel.DisableReading | src/net/Channel.cc:80-84 | takes them out, likewise |
| EPollPollers.Channel.EnableWriting | src/net/Channel.cc:86-90 | adds OUT, likewise; the channel is then writing |
| EPollPollers.Channel.DisableWriting | src/net/Channel.cc:92-96 | takes OUT out, likewise; the channel is then not writing |
| EPollPollers.Channel.DisableAll | src/net/Channel.cc:98-102 | empties the mask, likewise, whatever the index is |
| EPollPollers.Channel.HandleEvent | src/net/Channel.cc:163-192 | the code's four branches call exactly those callbacks for the channel's readiness mask, in that order |
| EPollPollers.Channel.Update | src/net/Channel.cc:156-161 | with a loop the poller's whole state follows the registration model, and stays in step with the kernel if and only if no other registered channel has the descriptor; without one only the mask changes |
| EPollPollers.Channel.Remove | src/net/Channel.cc:149-154 | with a loop the poller's whole state follows the removal of the model, and stays in step under the same condition; without one nothing changes |
| EPollPollers.EPollPoller.UpdateChannel | src/net/EPollPoller.cc:79-99 | the code's branches on the index refine the model's update, including ADD with an empty mask |
| EPollPollers.EPollPoller.RemoveChannel | src/net/EPollPoller.cc:101-110 | the code refines the model's removal, with DEL only from kAdded |
| EPollPollers.EPollPoller.Add | src/net/EPollPoller.cc:121-138 | EPOLL_CTL_ADD registers an absent descriptor and is fatal for a present one |
| EPollPollers.EPollPoller.Mod | src/net/EPollPoller.cc:121-138 | EPOLL_CTL_MOD replaces a present mask and is fatal for an absent descriptor |
| EPollPollers.EPollPoller.Del | src/net/EPollPoller.cc:121-138 | EPOLL_CTL_DEL takes a present descriptor out and only logs an absent one |
| EPollPollers.EPollPoller.FillActiveChannels | src/net/EPollPoller.cc:112-119 | the active list is the kernel's report in order, each channel carrying its own readiness mask |
| ServerSteps.AcceptKeeps | src/net/TcpServer.cc:87-114 | accepting a connection onto any loop keeps the whole invariant |
| ServerSteps.EstablishedKeeps | src/net/TcpConnection.cc:116-125 | so does `connectEstablished` when its functor runs |
| ServerSteps.DestroyedKeeps | src/net/TcpConnection.cc:127-140 | so does `connectDestroyed` when its functor runs |
| ServerSteps.RemovalKeeps | src/net/TcpServer.cc:124-131 | so does `removeConnectionInLoop`, which hands the last pointer to the I/O loop's queue |
| ServerProofs.HandleCloseKeeps | src/net/TcpConnection.cc:191-204 | so does closing from inside a round, whichever loop the connection lives on; that the server then hears of it is ServerProgress.ClosedIsBeingRemoved |
| ServerSteps.ReapKeeps | src/net/TcpConnection.cc:127-140 | so does the destructor once the last shared pointer is gone |
| ServerSteps.BeginKeeps | src/net/TcpConnection.cc:71-94 | so does the check a cross-thread `send` or `shutdown` makes |
| ServerSteps.PostKeeps | src/net/TcpConnection.cc:80-93 | so does its posting of a task bound to the raw object |
| ServerSteps.StepKeeps | src/net/TcpServer.cc:87-131 | every step of every loop, of user code and of other threads keeps the invariant, and is safe if and only if it does not run such a task on a destroyed connection |
| ServerTheorems.RegisteredIsHeld | src/net/TcpServer.cc:87-131 | in every interleaving, a channel in a loop's fd table or interest set belongs to a live connection of that loop, not torn down, held by the map or by a teardown still queued there |
| ServerTheorems.HeldWhileUp | src/net/TcpServer.cc:116-131 | until `connectDestroyed` has run, the map or a queued teardown holds the connection |
| ServerTheorems.ActiveIsLive | src/net/EventLoop.cc:59-68 | every channel still to be handled in a round belongs to a live, held connection, whatever earlier handlers of the round did |
| ServerTheorems.NoCallRefused | src/net/EPollPoller.cc:121-138 | in every run no epoll call of any loop is refused |
| ServerTheorems.DestroyedAfterTeardown | src/net/TcpConnection.cc:127-140 | a connection is destroyed and its descriptor closed only after its teardown took the channel out of every table and interest set |
| ServerTheorems.UpBeforeDown | src/net/TcpServer.cc:87-114 | each connection is announced at most once, and before any "down"; no entry of the connection map is overwritten |
| ServerChannels.UpIsReading | src/net/TcpConnection.cc:116-204 | over every run: the kernel watches a connection's descriptor for input, on that connection's loop, while it is up, and is asked for nothing before it comes up and after it goes down |
| ServerChannels.NeverBack | src/net/TcpConnection.cc:88-204 | over every run: no connection is forgotten, revived, moved to another loop or descriptor, or goes back in its states, and no report is taken back |
| ServerChannels.UserCallsMean | src/net/TcpConnection.cc:71-94 | a change of interest by a send is what the kernel then holds for the descriptor, exactly; a shutdown from any thread takes an up connection to the half-closing state, a send to none |
| ServerProgress.ClosedIsBeingRemoved | src/net/TcpServer.cc:116-131 | over every run: if a connection in the map has been reported down, the base loop holds the functor that removes it |
| ServerProgress.ClosedIsTornDown | src/net/TcpServer.cc:116-131 | from every state of a run whose posts are backed: a connection that has been reported down gets out of the map and is torn down, by no more than the loops' own steps |
| ServerReclaim.ClosedIsDestroyed | src/net/TcpServer.cc:116-131 | from the same states: it is destroyed and its descriptor closed once user code and the callers that have posted let go, so the server keeps nothing back, however often it was closed |
| ServerProgress.AcceptMakes | src/net/TcpServer.cc:87-114 | an accepted descriptor belongs to a new connection, in the map, on the loop chosen, up at once if that is the base loop |
| ServerProgress.AcceptedComesUp | src/net/TcpServer.cc:87-114 | from the same states: every connection not reported up yet gets there, reported once, with the kernel watching its descriptor for input |
| ServerProgress.ReportedIsHandled | src/net/EventLoop.cc:59-68 | from the same states: whatever poll reports to a loop, the loop comes to handle each channel of the report, with all the callbacks of its mask |
| ServerProgress.Comes | src/net/EventLoop.cc:165-180 | a loop, left to itself, comes to run each functor it holds, and takes nobody's pointer meanwhile |
| ServerProgress.HeldFunctorRuns | src/net/EventLoop.cc:91-180 | over every run whose posts are backed: every loop can get round to every functor it holds |
| ServerProgress.PostsMean | src/net/TcpConnection.cc:71-94 | what is queued or posted waits in the loop it was meant for; each task of a cross-thread call has a ticket of its own |
| ServerProgress.PointersMean | src/net/TcpConnection.cc:71-94 | pointers outside the loops exist from exactly the step that takes them to exactly the step that lets go |
| ServerWorkers.OnlyStrayTasksCrash | src/net/TcpConnection.cc:71-94 | in every run, the only step that follows a pointer to a destroyed connection is the run of a task that a cross-thread call bound to the raw object |
| ServerWorkers.CarefulCallersAreSafe | src/net/TcpConnection.cc:71-94 | in every run in which each cross-thread caller keeps its shared pointer until its task has run, no pointer to a destroyed connection is followed |
| ServerWorkers.ReleaseExactly | src/net/TcpConnection.cc:71-94 | for a caller with the last pointer, letting go can lead to a crash if and only if its task has not run yet, however careful everybody is afterwards |
| ServerTasks.AnchoredStays | src/net/EventLoop.cc:165-180 | whatever anybody does, a task that the map, a removal still due, its own queue or its own batch keeps the connection for stays so |
| ServerTasks.InTimeIsBacked | src/net/TcpServer.cc:124-131 | until the teardown is swapped out, the map or the same queue owns the connection |
| ServerTasks.TasksPostedInTimeAreSafe | src/net/EventLoop.cc:165-180 | in every run in which tasks are posted before the teardown of their connection is swapped out, however early callers let go, no pointer to a destroyed connection is followed |
| ServerTasks.BackedPostsAreSafe | src/net/EventLoop.cc:165-180 | the same when each task is posted while the map, a removal still due or a functor in the same queue owns the connection |
| ServerTasks.NoUseAfterFree | src/net/TcpServer.cc:87-131 | the same in every run in which no caller lets go while its task waits and nothing of that kind keeps the connection until the task has run |
| ServerLatePosts.Drain | src/net/EventLoop.cc:59-68 | any other loop, left to itself, comes to hold the connection no more |
| ServerLatePosts.PostExactly | src/net/TcpConnection.cc:71-94 | a task posted now can run on a destroyed connection, in some continuation in which everybody lets go when they like, if and only if neither the map, nor a removal still due, nor a functor in the same queue owns the connection now |
| ServerWorkers.Doom | src/net/EventLoop.cc:59-68 | a loop that holds such a task of a destroyed connection comes to it, from wherever it stands |
| ServerStray.StrayRun | src/net/TcpConnection.cc:71-94 | a concrete run from start-up in which a task posted after the teardown runs on a destroyed connection |
| ServerCallbacks.DownAtMostOnce | src/net/TcpConnection.cc:127-204 | unless an event whose mask has HUP without IN but with PRI or RDHUP reads end of stream, a connection is reported down exactly once when it is disconnected, so `connectDestroyed` never adds a second |
| ServerEvents.EventRun | src/net/Channel.cc:163-192 | the callbacks of one event, run as steps of the loop, report the connection down as often as they close it |
| ServerEvents.TameExactly | src/net/Channel.cc:163-192 | at end of stream a mask's callbacks close at most once if and only if it is not HUP without IN with PRI or RDHUP; without end of stream they never do |
| ServerEvents.EventReportsOnce | src/net/Channel.cc:163-192 | from a connection that is up, running the whole event reports it down at most once if and only if the mask is not of that kind or its read does not find end of stream |
| ServerEvents.DownsExactly | src/net/TcpConnection.cc:147-204 | over every run, no connection is ever reported down twice if and only if no event with such a mask has read end of stream |
| ServerEvents.DownTwice | src/net/Channel.cc:163-192 | a concrete run from start-up in which one event reports a connection down twice |

## Left out

- System calls are environment steps with their documented result ranges; `timerfd_settime`, `epoll_create1` and `eventfd` are taken to succeed.
- Socket, SocketsOps, InetAddress, Acceptor, Logger and the examples' `main` functions: wrappers and formatting.
- EventLoopThread and EventLoopThreadPool: the I/O loop of a new connection is any loop, which is more general than round robin.
- The wall clock, the monotonic clock and floating-point seconds: one integer microsecond clock that never goes back, and the interval as its truncated microsecond delta.
- Wrap-around of `size_t` and of the `int64_t` clock and sequence counter; a connection is accepted only while `nextConnId_` is below INT_MAX.
- Destruction of an EventLoop, TimerQueue or TcpServer, with or without live connections: the claims are about running systems.
- A second `loop()` on one EventLoop, `loop()` called from inside a callback, and functors whose destructors queue more work.
- EventLoops.NoLostWakeup: excludes a functor queued by the loop thread before `loop()`, for which the code sends no wakeup.
- EventLoops.QuitEndsLoop: a `quit` made before `loop()` is forgotten by the code, so the claim starts from a running loop.
- ConnectionModel.DeferredHalfClose: excludes late deferred tasks, after which it is false (HalfCloseExactly).
- Fairness: that work gets done is stated as a continuation in which the loops take their own steps and users let go; which thread the scheduler runs is not part of this model.
- Data races on `state_`: a cross-thread call reads it, and a cross-thread `shutdown` sets it, in one step with the check.
- ServerModel gives user code and sends as changes of the interest mask, tasks that own their connection or are bound to the raw object, and pointers kept or dropped; message contents are in ConnectionModel only.
- The wakeup, timer and acceptor channels are not in the server model's pollers; the poller theorems cover any channels with distinct descriptors.
- Optional callbacks are taken to be set; a callback that is not set does strictly less.
- The `TimerId` of a cross-thread `addTimer` is taken as formed at allocation, although the code reads it after the hand-off.
- Growth of the poller's `events_` array, `Buffer::append` from the buffer's own memory, and direct outside use of `hasWritten`.
