# A verified model of the reactor library and its game server

The repository is a C++ reactor library (event loops, an epoll poller, TCP connections, a byte
buffer, a thread pool) and a two-player game server built on it. This project models the parts of
it that carry state and proves what that state is relied on for. The kernel is a set of contracts:
`epoll_wait` reports any subset of what is registered and ready, `readv` and `write` come to any
legal count or an error, the epoll set is a map, the eventfd is a counter.

`dafny verify dfyconfig.toml` checks everything. The files, by subject:

* **Life of a connection across loops.** `Registry` (what the poller and the kernel know),
  `Dispatch` (which callbacks a readiness makes), `Naming`, and the machine in `Lifecycle`: any
  number of event loops and connections, the tasks queued between them, threads that send and shut
  down, the server and its destructor. `LifecycleInv` states the inductive invariant,
  `LifecycleSteps` proves that each of the fifteen kinds of step keeps it, `LifecycleRuns` draws the
  conclusions about whole runs. `LifecyclePush` says exactly when a task with a raw `this` may be
  queued, whatever all threads do afterwards, and `LifecycleEnd` that a closed connection does end.
  `LifecycleLaws` tells every step a second time, field by field, and proves that a dispatch is complete.
  `LifecycleOnce` and `LifecycleTwice` say exactly which
  steps can make a connection close twice. `LifecycleWitness` and `LifecycleReopen` hold concrete runs
  that show the assumptions are needed. The invariant looks at one connection at a time: both
  queues a connection's tasks can be in are projected to that connection, so that the world becomes
  a family of independent automata (`View`, `ViewInv`) tied together only by distinct open fds.
  `EpollPoller` and `TcpServer` hold the objects.
* **Task queue and wakeup.** `TaskQueue` is the interleaving machine of one loop thread and any
  number of others; `EventLoop` is the object, whose methods are shown to be runs of that machine.
* **Buffer and output stream.** `BufferSpec` and `StreamSpec` are the value models, `StreamRuns` the
  theorems over runs, `StreamLaws` those that tell every byte from the steps alone, `StreamShut` those
  about the half-close, with shutdown called on the loop's thread and on others; `Buffer` and
  `TcpConnection` are the objects changed in place.
* **Choice of loop.** `LoopPool`.
* **Game and matchmaking.** `GameSpec` and `MatchSpec` are the rules, `GameServer` the objects; `MatchLog`
  sets the server against a log of all rooms ever made, written from the outside.

## Where the code departs from what it is for

The literal form is kept wherever it can be told apart from the intended one; a parameter
(`AsWritten` or `Meant`) chooses between them, theorems about what the code is for use `Meant`, and
the literal form gets its exact condition.

* `wakeup` reads the eventfd (eventloop.cc:119). Then epoll never reports it, and a loop that polls over
  work leaves poll exactly when epoll times out or reports another channel: `AsWrittenNeverReported`, `AsWrittenLostIff`,
  `AsWrittenWakesInVain`.
* `writeFd` offers `writableBytes()` bytes (buffer.cc:52). It overshoots exactly when the free tail is
  longer than the pending bytes and stalls exactly when there is no free tail: `AsWrittenWriteIff`.
* `getNextLoop` wraps on `>` (eventloopthreadpool.cc:48). Call number k is out of range exactly when
  k mod (n + 1) is n: `AsWrittenInRangeIff`.
* `handleClose` has no guard (tcpconnection.cc:113-122). There are exactly two ways to a second close.
  One is EPOLLHUP with EPOLLPRI and without EPOLLIN on a stream that has ended, which closes twice in one
  dispatch: `DispatchClosesOnceIff`, `DoubleCloseHappens`; its second `disableAll` registers the channel
  again: `DisableAllToggles`. The other is a queued send that falls short on a closed connection before its
  destruction has reached the running batch (tcpconnection.cc:164 refuses kDisconnecting only), which
  registers the channel again for another hang-up: `ReopeningHappens`; it cannot happen on the main loop:
  `MainNeverReopens`. That these two are all, and that each really leads to a second close: `StepOnceIff`,
  `LifeOnceIff`.
* `sendInLoop` refuses kDisconnecting only (tcpconnection.cc:164), so a queued send still adds bytes
  after a close: `NoBytesAfterShutdownIff`, `LateByteAdded`.
* `shutdown` tests and sets the state in two steps (tcpconnection.cc:238-240), which is the only way the
  state ever goes back: `StateMonotoneIff`, `StaleShutdownGoesBack`. A connection taken back like that can
  hold bytes that nothing will write: `InterestTracksIff`, `StrandedByte`.
* `shutdownInLoop` looks at write interest only (tcpconnection.cc:245-253). Queued by another thread it can
  come after `handleWrite` has already half-closed: SHUT_WR goes out twice exactly if the pending bytes
  drained before it ran, and it then found write interest off: `ShutTwiceIff`, `SecondShut`; if two threads
  pass the test of the state before either stores, also without: `ShutsTwiceIff`, `TwoCallersShut`. And it
  can come after a close that left bytes: SHUT_WR goes out with bytes pending exactly then, if no send has
  turned write interest on again: `ShutEarlyIff`, `WaitingShut`.
* A send or a half-close queued by another thread holds a raw `this` (tcpconnection.cc:151-152 and 241).
  When its turn comes its connection is undestroyed exactly if it was in `connectionMap_` at the push:
  `PushSendSafeIff`, `LateSendDangles`.
* `loop` clears `quit_` on entry (eventloop.cc:64), so an earlier quit is forgotten:
  `EarlyQuitForgotten`; work that the loop's own thread queued before `loop` is slept over: `StartLosesIff`.
* The high-water test is strict on both sides (tcpconnection.cc:203): a crossing that first lands on
  the mark is never reported: `MissedCrossing`, `CrossingMissed`.
* `~TcpServer` reports no down for a connection on which `shutdown` was called, whether it destroys it at
  once or on its io loop: `DestructorDownAtOnceIff`, `DestructorDownIff`, `SilentEnd`.
* A fully disabled channel goes to kNew, not kDeleted (epollpoller.cc:89); kDeleted is never reached:
  `PollerAgreesWithKernel`.

## Model

| member | source | states |
|---|---|---|
| Naming.ParseDecimal | muduo/net/src/tcpserver.cc:66 | the decimal id printed into a name can be read back: printing is injective |
| Naming.SuffixFits | muduo/net/src/tcpserver.cc:65-66 | for every IPv4 address, port and id up to INT_MAX the 64-byte field truncates nothing |
| Naming.DecimalLength | muduo/base/src/inetaddress.cc:35-42 | a number below 10^k prints in at most k digits, which bounds `toIpPort` |
| Naming.NamesDistinct | muduo/net/src/tcpserver.cc:65-67 | two connections of one server with different ids never have the same name |
| Naming.TruncationWouldCollide | muduo/net/src/tcpserver.cc:65-66 | a suffix past the field would be cut to one and the same name, so the bound is needed |
| Naming.IpPortReadBack | muduo/base/src/inetaddress.cc:35-42 | from the printed address the four bytes and the port can be read back, in their order |
| Naming.NameReadBack | muduo/net/src/tcpserver.cc:65-67 | a connection name begins with the server name, and its address and id can be read back from the rest |
| Registry.SetEventsAgrees | muduo/net/src/epollpoller.cc:68-97 | any change of interest on an fd of one's own keeps poller and kernel in agreement without a refused epoll_ctl, and says exactly what became of the channel and of `channels_` |
| Registry.RemoveAgrees | muduo/net/src/epollpoller.cc:98-107 | removal keeps the agreement, issues DEL only when legal, and takes out exactly the channel's own entry |
| Registry.UpdateEffect | muduo/net/src/epollpoller.cc:117-136 | which epoll_ctl calls the kernel refuses, and that a legal one enters, changes or takes out the one fd with the present mask |
| Registry.InterestBits | muduo/net/include/channel.h:42-51 | bit by bit, what each change of interest leaves in the mask |
| Registry.PollerAgreesWithKernel | muduo/net/src/epollpoller.cc:68-136 | over every sequence of operations on channels with distinct fds: no refused call, kDeleted unreached, and the kernel's set and masks are those of an account that looks at neither `index_` nor `channels_` |
| Registry.DisableAllToggles | muduo/net/src/epollpoller.cc:73-96 | n calls of disableAll on a registered channel leave it registered exactly when n is even |
| Dispatch.DispatchClosesOnceIff | muduo/net/src/channel.cc:55-96 | one dispatch runs handleClose twice exactly for EPOLLHUP and EPOLLPRI without EPOLLIN on an ended stream, and otherwise at most once |
| Dispatch.CallbacksExact | muduo/net/src/channel.cc:55-96 | for every readiness the close callback is made iff EPOLLHUP without EPOLLIN, error iff EPOLLERR, read iff EPOLLIN or EPOLLPRI, write iff EPOLLOUT, each once and in that order |
| Dispatch.ExactlyUnique | muduo/net/src/channel.cc:55-96 | those conditions and that order leave one sequence of callbacks only |
| EpollPollers.Channel.constructor | muduo/net/src/channel.cc:14-18 | a new channel of a poller asks for nothing, is kNew, and leaves the poller's books otherwise alone |
| EpollPollers.Channel.Tie | muduo/net/src/channel.cc:23-27 | the channel is tied to this owner from now on |
| EpollPollers.Channel.SetInterest | muduo/net/include/channel.h:42-46 | a change of the mask, pushed through the poller, has the effect of `Registry.SetEvents`, and on an fd of one's own keeps the agreement with no refused call |
| EpollPollers.Channel.EnableReading | muduo/net/include/channel.h:42 | as specified, and nothing else of the poller changes |
| EpollPollers.Channel.EnableWriting | muduo/net/include/channel.h:44 | as specified |
| EpollPollers.Channel.DisableWriting | muduo/net/include/channel.h:45 | as specified |
| EpollPollers.Channel.DisableAll | muduo/net/include/channel.h:46 | as specified, with the re-registration of an unregistered channel |
| EpollPollers.Channel.Remove | muduo/net/src/channel.cc:34-37 | removal of this channel only, keeping the agreement |
| EpollPollers.Channel.HandleEvent | muduo/net/src/channel.cc:39-53 | a tied channel makes exactly the callbacks due for its readiness, each once and in order, if its owner is alive and none if it is not; an untied one always makes them |
| EpollPollers.Channel.HandleEventWithGuard | muduo/net/src/channel.cc:55-96 | exactly the callbacks due for the readiness are made, each once, close before error before read before write |
| EpollPollers.EpollPoller.Update | muduo/net/src/epollpoller.cc:117-136 | one epoll_ctl call with its legality |
| EpollPollers.EpollPoller.UpdateChannel | muduo/net/src/epollpoller.cc:68-97 | refines the specification on which the agreement theorems are proved |
| EpollPollers.EpollPoller.RemoveChannel | muduo/net/src/epollpoller.cc:98-107 | refines the specification on which the agreement theorems are proved |
| EpollPollers.EpollPoller.FillActiveChannels | muduo/net/src/epollpoller.cc:108-116 | the active list is the reported channels in order, each with its own readiness |
| LifecycleInv.MineConcat | muduo/net/src/eventloop.cc:105-115 | projecting a queue to one connection respects appending, so FIFO order survives the projection |
| LifecycleInv.UndestroyedOwned | muduo/net/src/tcpserver.cc:61-105 | until connectDestroyed has run, the map or a queued lambda owns the connection |
| LifecycleInv.MappedOwned | muduo/net/src/tcpserver.cc:61-105 | a channel in `channels_` belongs to an owned, established, undestroyed connection |
| LifecycleInv.OwnedKeyFree | muduo/net/src/epollpoller.cc:68-107 | nothing else sits under the fd of an owned connection, in `channels_` or in the kernel |
| LifecycleInv.FrameKeeps | muduo/net/src/tcpserver.cc:61-105 | a step confined to one connection keeps the invariant of all the others |
| LifecycleSteps.PollReturnKeeps | muduo/net/src/eventloop.cc:69-70 | whatever epoll_wait reports, the active list holds only undestroyed connections of that loop |
| LifecycleSteps.BeginEventKeeps | muduo/net/src/channel.cc:39-53 | dispatch of the next channel keeps the invariant, and the tie always locks |
| LifecycleSteps.RunCallbackKeeps | muduo/net/src/channel.cc:55-96 | every callback of a dispatch keeps the invariant |
| LifecycleSteps.QuietStepKeeps | muduo/net/src/eventloop.cc:72-78 | so do the end of an event, the swap of the queues and the end of a batch |
| LifecycleSteps.HandleCloseKeeps | muduo/net/src/tcpconnection.cc:113-122 | a close, on the main loop or another, keeps it, even a second one |
| LifecycleSteps.HandleWriteKeeps | muduo/net/src/tcpconnection.cc:76-111 | a writable event keeps it, drained or not, with or without a write-complete callback |
| LifecycleSteps.SendInLoopKeeps | muduo/net/src/tcpconnection.cc:157-214 | every outcome of a send keeps it, even after a close, as long as the connection is undestroyed |
| LifecycleSteps.LocalSendKeeps | muduo/net/src/tcpconnection.cc:141-148 | a send on the loop's own thread keeps it, from a handler, a task, or the up callback of a connection just accepted |
| LifecycleSteps.CheckKeeps | muduo/net/src/tcpconnection.cc:143 | another thread's look at the state keeps it |
| LifecycleSteps.PushRawKeeps | muduo/net/src/tcpconnection.cc:149-153 | queueing a send or half-close that another thread has decided on keeps it while the connection is listed |
| LifecycleSteps.SetDisconnectingKeeps | muduo/net/src/tcpconnection.cc:236-243 | the late store of shutdown keeps it, on the loop's thread or another, though the state may go back |
| LifecycleSteps.RunEstablishKeeps | muduo/net/src/tcpconnection.cc:217-224 | connectEstablished from the queue keeps it |
| LifecycleSteps.RunRemoveKeeps | muduo/net/src/tcpserver.cc:97-105 | removal from the map and the hand-over to the io loop keep it |
| LifecycleSteps.RunDestroyKeeps | muduo/net/src/tcpconnection.cc:225-234 | connectDestroyed keeps it, with a legal removal from the poller in every state |
| LifecycleSteps.SlotUnused | muduo/net/src/tcpserver.cc:61-90 | an fd the kernel hands out anew is neither in `channels_` nor in the epoll set |
| LifecycleSteps.FreshName | muduo/net/src/tcpserver.cc:65-81 | insertion into `connectionMap_` never overwrites an entry |
| LifecycleSteps.DestroyServerKeeps | muduo/net/src/tcpserver.cc:34-44 | the start of the destructor keeps the invariant |
| LifecycleSteps.StepKeeps | muduo/net/src/eventloop.cc:61-81 | every step of every loop and thread keeps the whole invariant |
| LifecycleRuns.RunKeeps | muduo/net/src/eventloop.cc:61-81 | so every run does |
| LifecycleRuns.PollerNeverDangles | muduo/net/src/tcpserver.cc:61-105 | in every reachable state each channel in an epoll set or in `channels_` belongs to a connection still owned by the map or a queued lambda, and no epoll_ctl was refused |
| LifecycleRuns.MappedExactlyWhileAlive | muduo/net/src/tcpconnection.cc:217-234 | a channel is in `channels_` exactly from connectEstablished to connectDestroyed |
| LifecycleRuns.DispatchStable | muduo/net/src/eventloop.cc:67-80 | while a loop dispatches, no channel on its active list leaves `channels_` or loses its owner |
| LifecycleRuns.QueuedSendAlive | muduo/net/src/tcpconnection.cc:149-153 | in runs whose pushes all come in time, the raw `this` of every queued send and half-close stays valid until it runs |
| LifecyclePush.StepMoved | muduo/net/src/eventloop.cc:105-167 | every step takes at most the head off a queue and adds only at its end, and only the task for it, or the destructor on the main loop, destroys a connection |
| LifecyclePush.PushSendSafeIff | muduo/net/src/tcpconnection.cc:141-155 | in every continuation, timely or not, when the tasks that were ahead of a pushed send or half-close have run, it is the next, and its connection is undestroyed exactly if it was listed at the push; then somebody owns it |
| LifecycleRuns.LifeOrder | muduo/net/src/tcpserver.cc:61-105 | establish before close before erase before destroy, in counts that hold at every moment, with the user's ups and downs |
| LifecycleEnd.ClosedIsDestroyed | muduo/net/src/tcpserver.cc:92-105 | in every continuation from a close on, once the main loop and then the connection's loop have taken what was queued on them, the connection is out of the map and destroyed |
| LifecycleLaws.RunTaskLaw | muduo/net/src/eventloop.cc:161-165 | what each queued task does to its connection, its interest, the map and the queues, field by field, and that it does nothing else |
| LifecycleLaws.RunCallbackLaw | muduo/net/src/channel.cc:55-96 | likewise each callback: a hang-up or the end of the data closes, a writable event takes write interest off once drained |
| LifecycleLaws.DirectLaw | muduo/net/src/tcpserver.cc:34-44 | likewise a send on the loop's own thread, and a connection dropped by the destructor |
| LifecycleLaws.AcceptLaw | muduo/net/src/tcpserver.cc:61-90 | likewise an accept: the new connection is up at once on the main loop, and by a queued task on another |
| LifecycleLaws.PlainLaw | muduo/net/src/eventloop.cc:61-81 | likewise all other steps |
| LifecycleLaws.DispatchComplete | muduo/net/src/eventloop.cc:69-78 | between poll and the swap of its queues a loop makes exactly the callbacks due for every reported channel, in order, whatever other loops and threads do meanwhile |
| LifecycleLaws.OpenIsRegistered | muduo/net/src/tcpconnection.cc:217-224 | from establishment to close a connection is in its loop's epoll set under its own mask, which asks for reading |
| LifecycleRuns.ClosePathCallbacks | muduo/net/src/tcpconnection.cc:113-122 | a connection closed once has told its user one up and one down, and is erased and destroyed at most once |
| LifecycleRuns.DestructorDownIff | muduo/net/src/tcpconnection.cc:225-234 | a connection dropped by the server's destructor and destroyed on its io loop has had one up, and a down exactly if its state was still kConnected |
| LifecycleRuns.DestructorDownAtOnceIff | muduo/net/src/tcpserver.cc:34-44 | the same for a connection of the main loop, which the destructor destroys as it drops it |
| LifecycleRuns.StateMonotoneIff | muduo/net/src/tcpconnection.cc:236-243 | a step takes the state of a connection back exactly if it is the late store of shutdown after a close |
| LifecycleOnce.StepOnce | muduo/net/src/tcpconnection.cc:113-122 | a step that is neither a doubled dispatch nor a reopening send leaves no connection with a second close, done or due |
| LifecycleOnce.LifeOnce | muduo/net/src/tcpserver.cc:61-105 | in runs without those two steps, every stage of every life happens at most once, and a closed connection had exactly one up and one down |
| LifecycleTwice.StepOnceIff | muduo/net/src/tcpconnection.cc:113-122 | a step leaves a world from which good steps alone never close a connection twice, exactly if it is a good step; after a bad one some such run does close one twice |
| LifecycleTwice.LifeOnceIff | muduo/net/src/tcpserver.cc:61-105 | a run is at all its moments safe from a second close by good steps exactly if it contains no bad one |
| LifecycleTwice.MainNeverReopens | muduo/net/src/tcpconnection.cc:157-214 | in a server without io threads no queued send is ever a bad step |
| LifecycleWitness.LateSendDangles | muduo/net/src/tcpconnection.cc:149-153 | a run in which a send queued too late is about to run on a destroyed connection that nobody owns |
| LifecycleWitness.SilentEnd | muduo/net/src/tcpserver.cc:34-44 | a run of a server without io threads that ends with one up, no down, and the connection destroyed |
| LifecycleReopen.ReopeningHappens | muduo/net/src/tcpconnection.cc:157-168 | a run on an io loop, every push in time and no doubled dispatch, with one up and two downs: the end of the peer's data, a queued send that falls short, a hang-up |
| LifecycleWitness.DoubleCloseHappens | muduo/net/src/channel.cc:65-87 | a run with one up, two downs, and the closed channel registered again |
| LifecycleWitness.StaleShutdownGoesBack | muduo/net/src/tcpconnection.cc:236-243 | a run that ends in kDisconnecting after its close |
| TcpServers.TcpServer.constructor | muduo/net/src/tcpserver.cc:22-32 | an empty map and ids from 1 |
| TcpServers.TcpServer.NewConnection | muduo/net/src/tcpserver.cc:61-90 | refines the machine's accept; while ids last, the new name is not yet in the map |
| TcpServers.TcpServer.RemoveConnection | muduo/net/src/tcpserver.cc:92-95 | as the last act of handleClose it completes that handler and restores the life-cycle invariant; on the main loop no entry leads to the connection any more, from another loop the map is as before |
| TcpServers.TcpServer.RemoveConnectionInLoop | muduo/net/src/tcpserver.cc:97-105 | erases exactly the entry that leads to the connection and queues its destruction |
| TcpServers.TcpServer.Destroy | muduo/net/src/tcpserver.cc:34-44 | in whatever order the map is walked, the destructor is a run of the machine that drops each listed connection once |
| TcpServers.EntryOf | muduo/net/src/tcpserver.cc:97-101 | only a connection's own name leads to it |
| TaskQueue.FifoStep | muduo/net/src/eventloop.cc:105-167 | every step of every thread keeps order, multiplicity and batch numbers |
| TaskQueue.ExactlyOnceFifo | muduo/net/src/eventloop.cc:105-167 | in every interleaving, executed then running then pending functors are the pushes in order |
| TaskQueue.NextBatchRunsIt | muduo/net/src/eventloop.cc:151-167 | a functor runs in the batch right after the one it was pushed in, never in the current one |
| TaskQueue.PushedIsAsked | muduo/net/src/eventloop.cc:105-167 | in every interleaving, executed then running then pending functors are those the labels queued, and one has run for every call |
| TaskQueue.SwapTakesAll | muduo/net/src/eventloop.cc:151-160 | after the last swap of a run, what has run or is in the batch is all that was queued before that swap, and what waits is all that was queued after it |
| TaskQueue.WakeStepIff | muduo/net/src/eventloop.cc:61-124 | a step keeps the wakeup invariant exactly unless it enters `loop` over work only its own thread has queued |
| TaskQueue.NoLostWakeup | muduo/net/src/eventloop.cc:61-167 | with the write that wakeup means, no interleaving leaves the loop asleep over a push or a quit with nobody about to wake it |
| TaskQueue.StartLosesIff | muduo/net/src/eventloop.cc:61-70 | entering `loop` sleeps over queued work exactly when only its own thread has queued |
| TaskQueue.OwnEarlyPushIsLost | muduo/net/src/eventloop.cc:111-114 | such a run |
| TaskQueue.EarlyQuitForgotten | muduo/net/src/eventloop.cc:61-64 | a quit before `loop` is wiped out |
| TaskQueue.QuitIff | muduo/net/src/eventloop.cc:61-91 | the quit flag is set exactly by a quit that no entry into `loop` has followed |
| TaskQueue.CounterStaysZero | muduo/net/src/eventloop.cc:116-124 | as written, the eventfd is never set |
| TaskQueue.AsWrittenNeverReported | muduo/net/src/eventloop.cc:116-124 | as written, epoll can never report the eventfd in any reachable state |
| TaskQueue.AsWrittenLostIff | muduo/net/src/eventloop.cc:116-124 | as written, a loop that polls with work or a quit stays in poll exactly in the continuations in which epoll does not return without the eventfd, by timeout or for another channel; there it runs nothing, and it is lost whenever no wakeup call is outstanding |
| TaskQueue.AsWrittenWakesInVain | muduo/net/src/eventloop.cc:116-124 | as written, from every such state the outstanding wakeup calls can all be made, and leave it lost |
| TaskQueue.TimeoutCatchesUp | muduo/net/src/eventloop.cc:67-80 | the turn after a timeout, or a report of another channel, runs everything ever pushed |
| TaskQueue.AsWrittenLoses | muduo/net/src/eventloop.cc:116-124 | a single push to a sleeping loop is lost as written |
| TaskQueue.RunAllRuns | muduo/net/src/eventloop.cc:161-166 | a batch left to itself runs to its end, in order |
| TaskQueue.WokenLoopCatchesUp | muduo/net/src/eventloop.cc:67-80 | one turn of a woken loop left to itself runs everything ever pushed |
| EventLoops.EventLoop.constructor | muduo/net/src/eventloop.cc:28-50 | the machine's initial state |
| EventLoops.EventLoop.Wakeup | muduo/net/src/eventloop.cc:116-124 | what each form does to the eventfd |
| EventLoops.EventLoop.QueueInLoop | muduo/net/src/eventloop.cc:105-115 | appends, wakes exactly from another thread or out of a running batch, and is a run of the machine |
| EventLoops.EventLoop.RunInLoop | muduo/net/src/eventloop.cc:93-103 | runs at once on the loop's thread and changes nothing, otherwise queues |
| EventLoops.EventLoop.Quit | muduo/net/src/eventloop.cc:83-91 | sets the flag and wakes exactly from another thread |
| EventLoops.EventLoop.HandleRead | muduo/net/src/eventloop.cc:141-149 | empties the eventfd |
| EventLoops.EventLoop.Call | muduo/net/src/eventloop.cc:161-165 | one functor, with whatever it or other threads queue meanwhile |
| EventLoops.EventLoop.DoPendingFunctors | muduo/net/src/eventloop.cc:151-167 | runs exactly what was queued at the swap, in order; what arrives meanwhile stays queued in order of arrival; the whole is a run of the machine |
| EventLoops.EventLoop.TakeTurn | muduo/net/src/eventloop.cc:69-78 | after one turn everything queued before its swap has run, in order: before the turn, or by handlers and other threads between poll and swap, and whether or not the eventfd was reported; a reported eventfd is emptied, so it holds the wakeups made since |
| EventLoops.EventLoop.Loop | muduo/net/src/eventloop.cc:61-81 | a run of the machine: all that was queued before it runs once a turn is taken, it leaves after the turn of the first quit, and an earlier quit is forgotten |
| BufferSpec.PerformRefines | muduo/net/include/buffer.h:37-108 | each operation keeps the indices in order and acts on the readable bytes as on a queue |
| BufferSpec.BufferIsQueue | muduo/net/include/buffer.h:37-108 | so does every sequence of appends, retrieves and scatter reads |
| BufferSpec.CapacityBound | muduo/net/include/buffer.h:67-108 | over every history the storage is at most 1032 bytes if no more than 1024 were ever held, else at most 2 * peak + 6 |
| BufferSpec.CapacitySmall | muduo/net/include/buffer.h:95-108 | in the first case it is 1032 bytes: the vector has never grown |
| BufferSpec.CapacityBoundAttained | muduo/net/include/buffer.h:95-108 | in the second, for every peak above 1024, a history that reaches the bound |
| BufferSpec.OfferedPendingIff | muduo/net/src/buffer.cc:50-59 | as written, writeFd offers only pending bytes exactly when the free tail is no longer than them, and nothing exactly when there is none |
| Buffers.Buffer.constructor | muduo/net/include/buffer.h:17-22 | 1032 bytes, both indices at 8 |
| Buffers.Buffer.RetrieveAll | muduo/net/include/buffer.h:49-53 | as specified, the vector untouched |
| Buffers.Buffer.Retrieve | muduo/net/include/buffer.h:37-47 | as specified, the vector untouched |
| Buffers.Buffer.RetrieveAsString | muduo/net/include/buffer.h:60-65 | the first readable bytes, and bytes past the readable ones when asked for more |
| Buffers.Buffer.RetrieveAllAsString | muduo/net/include/buffer.h:55-58 | all readable bytes, leaving none |
| Buffers.Buffer.SlideDown | muduo/net/include/buffer.h:104 | the overlapping forward copy moves every readable byte intact |
| Buffers.Buffer.MakeSpace | muduo/net/include/buffer.h:95-108 | growth or in-place compaction, as specified |
| Buffers.Buffer.EnsureWritableBytes | muduo/net/include/buffer.h:67-73 | as specified |
| Buffers.Buffer.Append | muduo/net/include/buffer.h:75-80 | the readable bytes become the old ones followed by the data |
| Buffers.Buffer.ReadFd | muduo/net/src/buffer.cc:13-48 | for every outcome of readv, the two segments end up behind the readable bytes in order, or nothing changes |
| Buffers.Buffer.WriteFd | muduo/net/src/buffer.cc:50-59 | the kernel gets a prefix of what is offered, and the buffer is left alone |
| StreamSpec.SendInLoopKeeps | muduo/net/src/tcpconnection.cc:157-214 | direct write, partial write, would-block and fault all keep the stream invariant |
| StreamSpec.HandleWriteKeeps | muduo/net/src/tcpconnection.cc:76-111 | so does every writable event, with either length of writeFd |
| StreamSpec.StepKeeps | muduo/net/src/tcpconnection.cc:76-253 | so does every step, those of shutdowns by other threads included |
| StreamLaws.StepTotals | muduo/net/src/tcpconnection.cc:157-214 | a message not refused or faulted is taken on whole; the wire gains exactly what the kernel took, from the message or from the front of what waits; no other step adds to either |
| StreamLaws.StepWaits | muduo/net/src/tcpconnection.cc:76-111 | the rest of a short direct write waits and write interest is on; a write takes its bytes off the front; interest goes off exactly when nothing waits any more, or at a close |
| StreamLaws.StepStates | muduo/net/src/tcpconnection.cc:217-253 | what each step does to the state, and to the shutdowns other threads have under way |
| StreamLaws.StepNotes | muduo/net/src/tcpconnection.cc:84-104 | exactly which alarm, write-complete callback and half-close a step makes |
| StreamLaws.AcceptedIsTaken | muduo/net/src/tcpconnection.cc:141-214 | in every run `accepted` is the concatenation of all messages neither refused nor faulted, each whole, told from the steps and the states before them |
| StreamLaws.WireIsPut | muduo/net/src/tcpconnection.cc:76-111 | in every run the wire is the concatenation of what each write took |
| StreamLaws.SentIsWrittenOrWaits | muduo/net/src/tcpconnection.cc:76-214 | so what was sent and not refused is what the writes took, followed by what still waits |
| StreamRuns.StreamConserved | muduo/net/src/tcpconnection.cc:76-111 | in every run the wire followed by the buffer is the concatenation of all sends not refused or faulted |
| StreamRuns.OvershootCounts | muduo/net/src/buffer.cc:50-59 | bytes nobody sent went out exactly if some writable event took more than was pending |
| StreamRuns.StreamConservedIff | muduo/net/src/tcpconnection.cc:76-111 | for either form, conservation in a run holds exactly if no writable event took more than was pending |
| StreamRuns.AsWrittenWriteIff | muduo/net/src/buffer.cc:52 | as written, the kernel can overshoot exactly when the free tail exceeds the pending bytes, and can take anything exactly when there is a free tail |
| StreamRuns.FullBufferStalls | muduo/net/src/buffer.cc:52 | as written, a full buffer never sends another byte, whatever the number of writable events |
| StreamRuns.AsWrittenOvershoots | muduo/net/src/buffer.cc:52 | a run in which the peer gets a byte nobody sent |
| StreamRuns.AsWrittenStallReachable | muduo/net/src/buffer.cc:52 | a run into the full buffer |
| StreamRuns.InterestTracksPending | muduo/net/src/tcpconnection.cc:169-213 | until a close, the channel asks for writability exactly while bytes are pending, and after it never without |
| StreamRuns.InterestTracksIff | muduo/net/src/tcpconnection.cc:236-243 | that interest goes with pending bytes in every state but kDisconnected, at all moments of a run, exactly if no late store of shutdown meets a closed connection with bytes pending and interest off |
| StreamRuns.CallbacksWhenDrained | muduo/net/src/tcpconnection.cc:84-94 | every write-complete callback was queued with all accepted bytes on the wire, every alarm above the mark |
| StreamRuns.WriteCompleteIff | muduo/net/src/tcpconnection.cc:76-214 | a step queues a write-complete callback exactly when it is a write that leaves nothing pending |
| StreamShut.StepAdds | muduo/net/src/tcpconnection.cc:76-253 | which steps issue SHUT_WR, and that each issues one |
| StreamShut.ShutEarlyIff | muduo/net/src/tcpconnection.cc:236-253 | SHUT_WR goes out with accepted bytes not on the wire in exactly the runs in which another thread's shutdownInLoop finds bytes pending and write interest off |
| StreamShut.ShutEarlyClosed | muduo/net/src/tcpconnection.cc:236-253 | and that takes a close before it |
| StreamShut.ShutTwiceIff | muduo/net/src/tcpconnection.cc:236-253 | if no store of shutdown comes late, SHUT_WR goes out twice at most, and twice exactly if pending bytes drained while kDisconnecting with another thread's shutdownInLoop still queued, which then ran with write interest off |
| StreamShut.ShutsTwiceIff | muduo/net/src/tcpconnection.cc:236-253 | in every run, late stores or not, more than once exactly if two of the issuing steps occur |
| StreamShut.HalfCloseOnce | muduo/net/src/tcpconnection.cc:236-253 | with shutdown on the loop's thread only, SHUT_WR at most once, and while disconnecting it has been issued exactly when nothing is pending |
| StreamShut.SecondShut | muduo/net/src/tcpconnection.cc:236-253 | a run with SHUT_WR twice: a byte drains before the queued shutdownInLoop runs |
| StreamShut.WaitingShut | muduo/net/src/tcpconnection.cc:236-253 | a run with SHUT_WR while a byte is pending: the peer closes before it runs |
| StreamShut.TwoCallersShut | muduo/net/src/tcpconnection.cc:238-240 | a run with SHUT_WR twice without a byte ever sent: two threads pass the test before either stores |
| StreamShut.StrandedByte | muduo/net/src/tcpconnection.cc:238-240 | a run that ends in kDisconnecting with a byte pending and no interest to write it |
| StreamRuns.NoBytesAfterShutdownIff | muduo/net/src/tcpconnection.cc:157-168 | once disconnecting, whichever thread has shut down, a run adds no byte exactly if no queued send runs after a close |
| StreamRuns.LateByteAdded | muduo/net/src/tcpconnection.cc:157-168 | a run in which a queued send adds a byte after shutdown and close |
| StreamShut.HalfCloseHappens | muduo/net/src/tcpconnection.cc:76-111 | from every reachable kDisconnecting state, without a close, as many positive writes as bytes pending are enough: SHUT_WR is out, or another thread's shutdownInLoop still queued; exactly once if no other thread shut down |
| StreamRuns.AlarmIff | muduo/net/src/tcpconnection.cc:200-206 | a step queues a high-water callback exactly when it takes the occupancy from below the mark to above it |
| StreamRuns.BetweenAlarms | muduo/net/src/tcpconnection.cc:200-206 | between two alarms the occupancy has been strictly below the mark |
| StreamRuns.MissedCrossing | muduo/net/src/tcpconnection.cc:203 | a rise above the mark is reported exactly if it did not start on the mark |
| StreamRuns.CrossingMissed | muduo/net/src/tcpconnection.cc:203 | for every mark, a run from nothing to one byte above it without a callback |
| TcpConnections.TcpConnection.constructor | muduo/net/src/tcpconnection.cc:30-48 | kConnecting, two empty buffers |
| TcpConnections.TcpConnection.SendInLoop | muduo/net/src/tcpconnection.cc:157-214 | refines the stream model, buffer storage included; by `StreamLaws` a message let in is taken on whole |
| TcpConnections.TcpConnection.EnqueueRest | muduo/net/src/tcpconnection.cc:200-213 | alarm exactly on the crossing of the mark, the data behind what waits, write interest on |
| TcpConnections.TcpConnection.Send | muduo/net/src/tcpconnection.cc:141-155 | on the loop's thread it refines the model; from another the data is handed to the loop exactly if the state is kConnected, and nothing else changes |
| TcpConnections.TcpConnection.RunHandedSend | muduo/net/src/tcpconnection.cc:151-152 | the oldest send handed over is run on the state of that moment |
| TcpConnections.TcpConnection.Shutdown | muduo/net/src/tcpconnection.cc:236-243 | refines the model: on the loop's thread the half-close follows at once, from another the test and the store, and a half-close handed over |
| TcpConnections.TcpConnection.RunHandedShutdown | muduo/net/src/tcpconnection.cc:241-253 | a half-close handed over refines the model's step on the state of that moment |
| TcpConnections.TcpConnection.ShutdownInLoop | muduo/net/src/tcpconnection.cc:245-253 | half-closes exactly without write interest, and refines the model |
| TcpConnections.TcpConnection.HandleWrite | muduo/net/src/tcpconnection.cc:76-111 | refines the model for either form of writeFd |
| TcpConnections.TcpConnection.Drained | muduo/net/src/tcpconnection.cc:86-100 | write interest off, then the callback, then the half-close that waited |
| TcpConnections.TcpConnection.HandleRead | muduo/net/src/tcpconnection.cc:55-74 | a message callback exactly for a positive read, whose bytes follow those held; a read of 0 makes one connection callback and one close callback, with reading off and the input kept; an error changes nothing |
| TcpConnections.TcpConnection.HandleClose | muduo/net/src/tcpconnection.cc:113-122 | all interest off, the output untouched, one connection callback that finds kDisconnected, one close callback |
| TcpConnections.TcpConnection.ConnectEstablished | muduo/net/src/tcpconnection.cc:217-224 | the channel tied and reading, one connection callback that finds kConnected, the output as the model has it |
| LoopPool.MeantIndex | muduo/net/src/eventloopthreadpool.cc:41-54 | with the meant wrap, call k uses loop k mod n |
| LoopPool.AsWrittenIndex | muduo/net/src/eventloopthreadpool.cc:41-54 | as written, call k uses index k mod (n + 1) |
| LoopPool.RoundRobinFair | muduo/net/src/eventloopthreadpool.cc:41-54 | with the meant wrap every index is in range and after k calls loop i has been chosen k / n times, once more if i is below k mod n |
| LoopPool.AsWrittenInRangeIff | muduo/net/src/eventloopthreadpool.cc:47-51 | as written, call k is in range exactly when k mod (n + 1) is not n |
| LoopPool.AsWrittenSafeIff | muduo/net/src/eventloopthreadpool.cc:47-51 | as written, the first calls are all in range exactly when there are no more of them than loops |
| LoopPool.ChoiceExact | muduo/net/src/eventloopthreadpool.cc:41-54 | for every k, the loop call k yields in either form, and that as written it is out of range exactly when k mod (n + 1) is n |
| LoopPool.EventLoopThreadPool.Start | muduo/net/src/eventloopthreadpool.cc:23-39 | one loop per thread in order; the callback runs on the base loop exactly without threads |
| LoopPool.EventLoopThreadPool.GetNextLoop | muduo/net/src/eventloopthreadpool.cc:41-54 | call k yields the loop at the index the theorems are about, or the base loop without threads |
| LoopPool.YieldsIff | muduo/net/src/eventloopthreadpool.cc:41-54 | in either form getNextLoop yields each of the loops at some call, and nothing else in range |
| LoopPool.EventLoopThreadPool.GetAllLoops | muduo/net/src/eventloopthreadpool.cc:55-65 | after start, exactly the loops that getNextLoop ever yields, as many as threads |
| GameSpec.ActFacts | example/game.cc:102-151 | each command keeps the fighters in range and the ledger of wounds, and an accepted one uses up endurance |
| GameSpec.PlayKeeps | example/game.cc:83-210 | a sent command, accepted or not, keeps all invariants of play |
| GameSpec.AcceptedIff | example/game.cc:83-151 | a command is accepted exactly when the game runs, it is the sender's turn and he can pay; a refused one changes nothing |
| GameSpec.GameLengthBound | example/game.cc:83-210 | for all rolls and commands at most 33 are accepted, and the 33rd ends the game |
| GameSpec.GameStaysLegal | example/game.cc:83-210 | 20 * hits + hp <= 200 + 100 * potions used, values in range, turns alternate, and on the finish exactly the player not to move is at zero |
| GameSpec.OpeningFigures | example/game.cc:60-62 | both players open with 200 hp, 100 mp and one potion of each kind, seat 0 to move |
| GameSpec.CommandEffect | example/game.cc:83-165 | field by field, what an accepted command does to both fighters with the damage rolled, when the game ends, and whose turn it is; a refused one changes nothing |
| GameSpec.RefusedBecause | example/game.cc:83-151 | each refusal has exactly its own reason |
| GameSpec.DamageIsRolled | example/game.cc:102-120 | in every game a player who has not drunk is at 200 less the sum of the rolls of accepted attacks on him, or at 0 |
| GameSpec.FirstWound | example/game.cc:102-120 | every roll can open a game, and costs just that |
| GameSpec.GameLengthAttained | example/game.cc:83-210 | a game of 33 accepted commands |
| MatchSpec.JoinKeeps | example/game.cc:286-310 | a new player, waiting or paired, keeps the matchmaking invariant |
| MatchSpec.MessageKeeps | example/game.cc:259-285 | so does every message, whatever the room decides |
| MatchSpec.RunKeeps | example/game.cc:259-315 | so does every run of connects, disconnects and messages |
| MatchSpec.LockIffInOneRoom | example/game.cc:269-274 | a player's room locks exactly if exactly one room in `rooms_` has him |
| MatchSpec.PlayersPaired | example/game.cc:286-310 | players joined are twice the rooms ever made, plus one if somebody waits |
| MatchSpec.RoomsAreRunning | example/game.cc:278-284 | no finished room stays in `rooms_`, and none there has accepted more than 32 commands |
| MatchSpec.NeverAlreadyFinished | example/game.cc:85-89 | through the server the "already finished" branch is unreachable, and every ruled message comes from one of the room's two players |
| MatchLog.RoomsAreUnfinished | example/game.cc:259-315 | after every run `rooms_` holds exactly the unfinished matches of a log that never drops one, in order of making, each with its players and its game as the log has them |
| MatchLog.MissingIffFinished | example/game.cc:281-283 | a room ever made is missing from `rooms_` exactly if its own game has finished |
| MatchLog.KnownIffJoined | example/game.cc:286-292 | a name is known exactly if its connection has ever come up |
| MatchLog.MessageEffect | example/game.cc:259-285 | on every reachable server a message goes, by its first character and from the seat of its sender, to the sender's room; every other room stays as it is and where it is, and that room goes exactly if its game is over |
| MatchLog.MessageIgnored | example/game.cc:259-274 | without a room of his the sender gets no ruling, and nothing changes |
| MatchLog.DownIsNothing | example/game.cc:312-315 | a disconnect changes neither players nor rooms |
| GameServers.GameRoom.HandleCommand | example/game.cc:83-165 | refines the rules on the two players' objects, for any sender |
| GameServers.GameRoom.CheckGameOver | example/game.cc:167-185 | over exactly when a player is at zero |
| GameServers.GameRoom.SwitchTurn | example/game.cc:205-210 | the other player's turn |
| GameServers.GameServer.constructor | example/game.cc:234-246 | nobody there |
| GameServers.GameServer.OnConnection | example/game.cc:286-315 | refines matchmaking: players, weak room pointers and rooms as objects agree with the model |
| GameServers.GameServer.OpenRoom | example/game.cc:301-311 | the waiting player and the newcomer share a new room, and no other room or player changes |
| GameServers.GameServer.Rule | example/game.cc:278-280 | a command in one room leaves all other rooms and players alone |
| GameServers.GameServer.Erase | example/game.cc:281-283 | exactly that room leaves `rooms_` |
| GameServers.GameServer.OnMessage | example/game.cc:259-285 | refines matchmaking for known and unknown names, players with and without a room, and games that end; the input is consumed exactly if a room rules |

## Left out

- System calls, errno values, sockets and their options, address conversion: only their contracts appear, as parameters or nondeterministic outcomes.
- Memory models: atomics and critical sections are single steps; a handler is one step of the life-cycle machine, with user actions between handlers.
- Machine integers: the id bound is stated (`INT_MAX`); sizes do not overflow.
- `Acceptor`: accept is a step that yields an fd no owned connection has.
- `EventLoopThread` and `Thread`: threads are assumed to start and hand over their loops; `startLoop` waits on a local variable that never changes, so as written no start completes.
- The growth of epoll_wait's event array, and how long a timeout is: a return without the eventfd stands for a timeout and for events of other channels alike.
- Logging, time stamps, peer addresses, the user's message and connection callbacks beyond their count and order.
- Channel.disableReading, Poller.hasChannel and TcpServer.start: easy members nothing else needs. The owner of a tied channel is named by a number.
- TcpConnections.TcpConnection.ConnectEstablished: the channel's interest is two flags here; its push to the poller is in EpollPollers and in the life-cycle machine.
- TcpConnections.TcpConnection.HandleClose: likewise; what the close callback does is TcpServers.TcpServer.RemoveConnection.
- The borrowed data pointer of a cross-thread send (tcpconnection.cc:152): the queued task carries a copy of the data; its `this` is raw as in the source.
- TcpConnections.TcpConnection.Shutdown: a call from another thread is one step of the object; the stream model has its test and its store apart.
- References held by users add ownership only and are not modelled; ownership is by `connectionMap_` and lambdas.
- The server is destroyed on the main thread after its loop, with no task left on the main loop that captured it, and no connection closes afterwards.
- The objects TcpServer, Channel and TcpConnection are each proved against their own specification; the life-cycle machine itself is on values, so aliasing between those objects is not captured.
- TcpServers.TcpServer.RemoveConnection: takes the connection's loop as argument, since objects of io loops are part of the ghost world.
- TcpServers.TcpServer.NewConnection: the loop to use is an argument, the callbacks are not set, and what is posted to the loop is in the ghost world.
- EpollPollers.EpollPoller.FillActiveChannels: the kernel reports a channel at most once per call, which epoll guarantees.
- EventLoops.EventLoop.Loop: takes a finite list of turns, because a loop that need not end has no result; a quit made by a functor of the batch is taken as made before the swap of the same turn.
- EventLoops.EventLoop.TakeTurn: the handlers of a turn appear only as what they queue and whether they quit.
- Buffers.Buffer.RetrieveAsString: a length past the end of the vector, a fault in the source, is excluded.
- Game message texts and sends, the shutdown of both connections at the end of a game, and the quality of random numbers: damage is any value in the stated range.
- The game server's callbacks are taken one at a time, as on one loop thread.
