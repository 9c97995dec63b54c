# A model of bounce and of the kernels it logs through

This project models three parts of the repository and proves what holds of them on every input, run or
interleaving.

- The reactor, `bounce/`. An event loop polls descriptors, dispatches their events and runs queued tasks.
  A poller keeps a dense array in step with a map. A timer queue keeps two ordered multimaps and one armed
  descriptor. Connections push bytes through a compacting buffer, and a server opens and tears them down
  across loops. Each is a state machine on values whose steps are what one thread does without another
  seeing an intermediate state; the kernel and the user are free to choose any legal answer or call.
- The number and brace kernels of fmt: fixed-point itoa, Grisu2 digit generation, the rounded 64-bit product,
  the digit count, the backward writers, the checked parser and the scanner of format strings.
- The log queue of spdlog: a ring that drops its oldest item, a blocking queue around it, and a pool of
  worker threads with a destructor that drains them.

Where the source updates an object in place, a class does too, and each of its methods is proved equal to the
function of the state machine it stands for; the properties are then lemmas about those functions.

| file | contents |
|---|---|
| `TcpServer.dfy`, `TcpServerProofs.dfy`, `ServerRuns.dfy`, `TcpServerObject.dfy` | connection protocol across loops, its invariant, what its runs amount to, the object |
| `ServerPollers.dfy`, `ServerCrash.dfy` | what a run of the server does to a poller, and a run that brings one down |
| `TcpConnection.dfy`, `TcpConnectionRuns.dfy`, `TcpConnectionObject.dfy`, `Channel.dfy` | outgoing stream of one connection, what its runs amount to, the object, event masks |
| `EventLoop.dfy`, `EventLoopObject.dfy` | task queue and wake-ups, the object |
| `PollPoller.dfy` | dense array and index map, and the object |
| `TimerQueue.dfy`, `TimerProofs.dfy`, `TimerHistory.dfy`, `TimerSettle.dfy`, `TimerQueueObject.dfy` | timers, what a round fires, what has fired over a run, catching up, the object |
| `Buffer.dfy` | byte queue |
| `Digits.dfy`, `DecimalFormatter.dfy`, `CountDigits.dfy`, `IntegerText.dfy`, `Fp.dfy`, `Grisu.dfy`, `FormatString.dfy` | fmt kernels |
| `CircularQ.dfy`, `ThreadPool.dfy`, `ThreadPoolObject.dfy` | ring, pool, and the objects |
| `Options.dfy`, `Sequences.dfy` | a value that may be absent, and an account of a queue |

## What the proofs found

Each of these is proved from the code as it is, with the exact condition where there is one.

- `PollPoller::removeChannel` looks the last slot up by what it holds. It dereferences a missing channel exactly
  if the channel removed is not last and the last slot is muted (`PollTables.RemoveExactly`). For runs of the server that
  is exactly if a connection is destroyed while the last slot is that of another one that is muted
  (`ServerPollers.PollerDown`). Two connections of one loop that hang up in the same poll bring it about
  (`ServerCrash.GoesDown`).
- `PollPoller::updateChannel` inserts a channel without muting its slot, even if it is interested in nothing
  (`PollTables.UpdateKeeps`). `handleClose` on a channel not registered would do that; the server's protocol
  runs it on registered channels only, which `ServerSafety.CloseKeeps` demands of every step that closes.
- `EventLoop::queueTaskInThread` skips its write while the loop does its tasks. A task pushed then, behind the swap,
  waits until something else wakes the loop (`EventLoops.WakeUpLost`); so does one the loop's own thread pushes outside a
  handler (`EventLoops.EarlyTaskWaits`). `EventLoops.LeftWaiting` says that nothing else can leave a task waiting,
  and without the two a blocked loop has run every task (`EventLoops.NoneLeft`).
- `TimerQueue::handleRead` walks the live map of repeat timers. A callback that adds a repeat timer ahead of the
  entry where the walk stops, but not before its own, has it fire at once, due or not: `TimerSafety.RoundFires` gives the
  condition, and in `TimerSafety.FiresEarly` a timer for 25 fires at 20. One that adds a repeat timer for a time before its
  own has it erased without having fired: `TimerSafety.RoundKeepsAll` gives that condition, and `TimerSafety.AddedAndLost`
  an input. The comment at `bounce/timer_queue.cc:86` fears `deleteTimer` there, but `deleteTimer` only queues a task,
  so that the deletion never meets the walk.
- `TimerQueue::resetTimerfd` disarms the descriptor if it runs at the very nanosecond of the earliest expiration
  (`TimerSafety.ArmedInTime` says exactly then, `TimerSafety.NotArmed` gives an input).
- `TimerQueue::deleteTimer` of a one-shot timer changes nothing (`TimerSafety.DeleteExactly`), so that it fires all the
  same (`TimerHistory.FiresOnce`); a repeat timer never fires again (`TimerHistory.NeverAgain`).
- `TcpConnection::shutdownInLoop` tests only write interest, which `handleClose` has turned off. A shutdown queued before
  a close and run after it issues SHUT_WR with bytes unsent, exactly in that case (`Connections.ShortShutdown`).
- One event can run `handleClose` twice (`Channels.CloseThenRead`); the second call tears nothing down twice
  (`ServerSafety.Safety`).
- `~thread_pool` never returns if the queue has capacity 0, and always can otherwise (`ThreadPools.DestructorReturns`).
- A message whose poster waited can still be dropped (`ThreadPools.BlockedPostLost`). All such messages are handled if and
  only if no post that does not wait finds the queue full with one of them as its oldest (`ThreadPools.WaitedHandled`).
- The comment at `bounce/poll_poller.cc:83` speaks of the index before the last; the code compares with the last.

## Model

| member | source | states |
|---|---|---|
| ServerSafety.Safety | bounce/tcp_server.cc:45-95 | in every interleaving of accepts, events, tasks and user calls over any loops: a registered channel's connection is alive, and in the map or owned by a pending destroyConnection; nothing polled, handled or queued reaches a freed connection; each connection leaves the map and is destroyed at most once, by its own removal; no insert finds its key taken |
| ServerSafety.StepKeeps | bounce/tcp_server.cc:45-95 | the invariant with the life of each connection, stage by stage, is kept by every step of every thread |
| ServerSafety.DestroyFindsClosed | bounce/tcp_connection.cc:66-73 | destroyConnection always finds its connection closed, muted and still registered, in its own loop: its test for connected never holds |
| ServerSafety.NoLeak | bounce/tcp_server.cc:81-95 | once no loop has work left, a closed connection is in neither map nor poller, had one destruction, and lives only if user code holds it; any other is in both |
| ServerSafety.RegisteredAlive | bounce/tcp_server.cc:81-95 | a registered channel implies a positive reference count |
| ServerSafety.CloseKeeps | bounce/tcp_connection.cc:243-251 | handleClose keeps the invariant from any stage of a registered connection, a second call in the same event included |
| ServerSafety.RunTaskKeeps | bounce/event_loop.cc:151-162 | running the next task keeps the invariant though the task's own reference goes with the batch |
| ServerSafety.AcceptKeeps | bounce/tcp_server.cc:45-74 | a descriptor the kernel hands out is not a key of the map, because whatever is in it is alive |
| ServerRuns.StateIs | bounce/tcp_connection.cc:60-251 | over every interleaving, from its acceptance on: a connection is closed if and only if handleClose was called for it, otherwise disconnecting if and only if a user asked for its end, otherwise connected if and only if it was accepted in the base loop or its task has run |
| ServerRuns.AcceptAdds | bounce/tcp_server.cc:45-74 | a new connection gets its descriptor, its loop and a map entry no other had; completed at once in the base loop |
| ServerRuns.TasksInOrder | bounce/event_loop.cc:105-162 | over every interleaving, the tasks a loop has run followed by those it has still to run are those that acceptances, closes, removals and user calls from other threads asked of it, each once, in order |
| ServerRuns.ForceCloseNotLost | bounce/tcp_connection.cc:167-190 | once a user has forced a connection to close, over every interleaving it is closed or its loop has the task that will close it |
| ServerRuns.EventsInOrder | bounce/event_loop.cc:43-56 | over every interleaving, the events a loop begins are those it polled, in order, and the callbacks it runs are those each event calls for, in dispatch order, up to what is left of the one it is at |
| ServerPollers.PollerDown | bounce/poll_poller.cc:77-96 | over every run of the server, its operations bring the poller of a loop down if and only if at some point a connection is destroyed while the last slot is that of another connection, which is muted; otherwise the poller holds exactly the registered connections beside the loop's own channels, muted as they are |
| ServerPollers.StepMirrors | bounce/poll_poller.cc:44-96 | one action keeps poller and server in step, or brings the poller down, with the exact condition |
| ServerPollers.RemovalFails | bounce/poll_poller.cc:77-96 | removing a connection's channel fails if and only if the last slot is another connection's and muted |
| ServerPollers.StepEffects | bounce/tcp_connection.cc:60-251 | what each action has the poller do agrees with what it does to the registration and interest of its connection |
| ServerCrash.BothMuted | bounce/tcp_server.cc:81-95 | a run of the protocol in which two connections of one loop are muted and registered, both destructions still queued |
| ServerCrash.GoesDown | bounce/poll_poller.cc:87 | that run, up to the first destruction, ends in the missing channel, whatever was registered before |
| TcpServerObject.TcpServer.constructor | bounce/tcp_server.cc:15-27 | a server starts with an empty map and idle loops |
| TcpServerObject.TcpServer.NewConnection | bounce/tcp_server.cc:45-74 | the whole new state of the protocol's step, with the fall-back to the base loop; the invariant is kept if the kernel's descriptor is no living connection's |
| TcpServerObject.TcpServer.RemoveConnection | bounce/tcp_server.cc:76-79 | runs the removal at once in the base loop, and queues it there from any other; a connection being closed is left in the invariant |
| TcpServerObject.TcpServer.RemoveConnectionInLoop | bounce/tcp_server.cc:81-95 | erases the entry under the descriptor and queues the destruction exactly if there is one; a connection being closed is left in the invariant |
| TcpServerObject.TcpServer.HandleClose | bounce/tcp_connection.cc:243-251 | the whole new state of the protocol's close step, and the invariant for a registered connection |
| TcpServerObject.TcpServer.DestroyInLoop | bounce/tcp_connection.cc:66-73 | the whole new state of the protocol's last step |
| TcpServerObject.TcpServer.RunTask | bounce/event_loop.cc:158-160 | the next task of a batch, whichever it is, takes the protocol's step and keeps the invariant |
| Connections.Stream | bounce/tcp_connection.cc:100-150 | over every run, wire followed by buffer is the concatenation of the messages that reached sendInLoop on an open connection, but for those of which nothing was sent with errno 32 or 104; while not disconnected, write interest is on exactly when the buffer is not empty |
| Connections.StepKeeps | bounce/tcp_connection.cc:60-251 | every action of the loop, the kernel or the user keeps the stream, the write interest and the shutdown invariants |
| Connections.Silence | bounce/tcp_connection.cc:208-251 | after handleClose, or after SHUT_WR, no later run puts a byte on the wire |
| Connections.ShutdownAtDrain | bounce/tcp_connection.cc:208-228 | the write that drains a connection asked to shut down issues SHUT_WR in the same step, with every accepted byte sent |
| Connections.ShutdownNotLost | bounce/tcp_connection.cc:152-165 | a connection that is disconnecting has bytes to drain, has issued SHUT_WR, or has the task that will |
| Connections.ShortShutdown | bounce/tcp_connection.cc:160-165 | a queued shutdown cuts the stream short if and only if the connection was closed meanwhile with bytes buffered |
| Connections.ShortShutdownHappens | bounce/tcp_connection.cc:160-165 | for every message there is a run in which that happens |
| ConnectionRuns.TasksInOrder | bounce/tcp_connection.cc:77-175 | over every run, the tasks that have run followed by those that wait are those that sends while connected, and shutdowns and force-closes until closed, asked for from other threads: each once, in order |
| ConnectionRuns.TaskDoes | bounce/tcp_connection.cc:100-190 | a message whose task runs is taken on unless the connection is closed or the kernel refuses it for good; a shutdown issues SHUT_WR unless write interest is on; a force-close closes |
| ConnectionRuns.StateIs | bounce/tcp_connection.cc:60-251 | over every run, a connection is closed if and only if an end of file, a hang-up or a force-close came, and otherwise disconnecting if and only if its end was asked for |
| ConnectionRuns.InterestIs | bounce/tcp_connection.cc:60-251 | over every run, a connection waits to read until it is closed and to write exactly while bytes are buffered; a closed one waits for nothing |
| ConnectionRuns.ForceCloseNotLost | bounce/tcp_connection.cc:167-190 | a connection forced to close is closed, or has the task that will |
| ConnectionRuns.Counts | bounce/tcp_connection.cc:100-241 | over every run, the wire is the accepted bytes cut off at the sum of what send answered, and write-complete callbacks, SHUT_WR and handleClose come exactly once for each action that calls for them |
| ConnectionRuns.CompleteMeansSent | bounce/tcp_connection.cc:118-226 | whenever a write-complete callback is queued, every accepted byte is on the wire |
| ConnectionObject.TcpConnection.SendInLoop | bounce/tcp_connection.cc:100-150 | the object's new state is the spec's, through the real buffer, for every answer of send |
| ConnectionObject.TcpConnection.TrySend | bounce/tcp_connection.cc:115-141 | what is sent at once, and the message given up exactly if nothing was sent with errno 32 (EPIPE) or 104 (ECONNRESET) |
| ConnectionObject.TcpConnection.HandleWrite | bounce/tcp_connection.cc:208-241 | the object's new state is the spec's for every partial write |
| ConnectionObject.TcpConnection.ConnectComplete | bounce/tcp_connection.cc:60-64 | connected, with read interest on and write interest as it was |
| ConnectionObject.TcpConnection.ShutdownInLoop | bounce/tcp_connection.cc:160-165 | SHUT_WR exactly without write interest |
| ConnectionObject.TcpConnection.HandleClose | bounce/tcp_connection.cc:243-251 | disconnected, with no interest |
| ConnectionObject.TcpConnection.ForceCloseInLoop | bounce/tcp_connection.cc:187-190 | closed afterwards, handleClose having run exactly if it was not before |
| ConnectionObject.TcpConnection.Send | bounce/tcp_connection.cc:77-98 | at once in the loop; from another thread the message goes to the end of the loop's tasks exactly while connected |
| ConnectionObject.TcpConnection.Shutdown | bounce/tcp_connection.cc:152-158 | disconnecting at once unless closed; SHUT_WR in the loop, and a task from another thread |
| ConnectionObject.TcpConnection.ForceClose | bounce/tcp_connection.cc:167-175 | closed at once in the loop; from another thread disconnecting at once, with a task that closes |
| ConnectionObject.TcpConnection.HandleChannel | bounce/channel.cc:20-36 | runs the handlers of one event in the dispatch order, each from the state the one before left |
| ConnectionObject.DispatchOrder | bounce/channel.cc:20-36 | the nested tests of the source are the fold over the list of callbacks |
| Channels.DispatchExactly | bounce/channel.cc:20-36 | which bits of the reported events call for which callback, both ways, and that callbacks come in the order close, error, read, write |
| Channels.CloseThenRead | bounce/channel.cc:20-36 | one event closes and reads if and only if it reports a hang-up with nothing to read and priority data or a half-close |
| Channels.EnableReading | bounce/channel.h:52 | turns read interest on and leaves write interest |
| Channels.EnableWriting | bounce/channel.h:54 | turns write interest on and leaves read interest |
| Channels.DisableWriting | bounce/channel.h:55 | turns write interest off and leaves read interest |
| EventLoops.InOrder | bounce/event_loop.cc:125-162 | over every interleaving, executed tasks, the rest of the batch and the waiting ones are the tasks that the run's steps push, each once, in order, and by whom |
| EventLoops.WaitsOnlyIf | bounce/event_loop.cc:105-174 | a task waits while the loop blocks only if its pusher has yet to write, saw the loop at its tasks, or was the loop's own thread outside a handler |
| EventLoops.LeftWaiting | bounce/event_loop.cc:105-162 | with no push under way, the blocked loop has tasks waiting if and only if one nobody wakes it for was pushed since the swap; only another event or push goes on from there |
| EventLoops.TurnRunsAll | bounce/event_loop.cc:43-56 | whatever other threads do, when a turn has taken its tasks and is back to poll, all tasks pushed before it have run, in order, behind those run before |
| EventLoops.HandledTasksRun | bounce/event_loop.cc:43-56 | a task pushed while a channel is handled has run when the loop is back to poll |
| EventLoops.NoneLeft | bounce/event_loop.cc:105-162 | if the loop's own thread pushes in handlers only and no other thread finds the loop at its tasks, a blocked loop with no push under way has run every task |
| EventLoops.CounterIs | bounce/event_loop.cc:110-174 | over every interleaving, the eventfd counts the writes since the wake-up callback last ran |
| EventLoops.TurnReads | bounce/event_loop.cc:43-56 | whatever other threads do, a loop that polls with the counter up runs the wake-up callback before it takes its tasks |
| EventLoopObject.WokenTurn | bounce/event_loop.cc:43-56 | one write is enough: with no other event, the loop polls, reads the eventfd and runs all that waits |
| EventLoops.StepKeeps | bounce/event_loop.cc:105-174 | the accounting of every waiting task is kept by every step of the loop and of any number of threads |
| EventLoops.WakeUpLost | bounce/event_loop.cc:105-123 | an interleaving in which another thread's task is left waiting |
| EventLoops.EarlyTaskWaits | bounce/event_loop.cc:105-123 | a task pushed before the loop starts is left waiting |
| EventLoopObject.EventLoop.QueueTaskInThread | bounce/event_loop.cc:105-123 | the task goes to the end of the vector; the counter is written exactly by another thread that finds the loop not at its tasks |
| EventLoops.RunsAhead | bounce/event_loop.cc:97-103 | over every interleaving, a task the loop's own thread runs at once is on record as run behind the queued tasks run so far and ahead of all that wait |
| EventLoopObject.EventLoop.DoTaskInThread | bounce/event_loop.cc:97-103 | the loop's own thread runs the task at once, which the history records, and leaves the queue alone; another thread queues it |
| EventLoopObject.EventLoop.DoTheTasks | bounce/event_loop.cc:151-162 | takes the vector once, runs it in order, and leaves what the tasks push for the next turn |
| EventLoopObject.EventLoop.WeakupCallback | bounce/event_loop.cc:164-174 | reading sets the counter to zero and leaves the tasks |
| EventLoopObject.EventLoop.LoopTurn | bounce/event_loop.cc:43-56 | one turn of loop is poll, handlers, tasks; it ends with the counter at zero and all that waited run |
| EventLoopObject.TurnIsRun | bounce/event_loop.cc:43-56 | an uninterrupted turn is a run of the machine; it reads the eventfd, and leaves tasks waiting if and only if one that ran pushed others |
| PollTables.RemoveExactly | bounce/poll_poller.cc:77-96 | removal misses exactly an unknown channel, and dereferences a missing one if and only if the last slot is another's and muted |
| PollTables.UpdateKeeps | bounce/poll_poller.cc:44-75 | array and map stay inverse; exactly the slot of the descriptor is written, with no events reported, and a new one goes last; it holds the channel's interest, and is muted if and only if the channel was known and is interested in nothing |
| PollTables.RemoveKeeps | bounce/poll_poller.cc:77-96 | array and map stay inverse; the descriptor goes, the last one takes its place, and every other slot keeps its index and contents |
| PollTables.RunBijective | bounce/poll_poller.cc:44-96 | over every run of updates and removals, array and map are inverse |
| PollTables.RunKeeps | bounce/poll_poller.cc:44-96 | over every run that inserts no channel interested in nothing, a slot is moreover muted exactly when its channel is interested in nothing |
| PollTables.DownExactly | bounce/poll_poller.cc:77-96 | a run goes down if and only if some operation removes a channel that is not last while the last slot is muted |
| PollTables.CloseTogether | bounce/poll_poller.cc:77-96 | two channels muted before the first is removed bring the poller down, whatever was registered before them, if nothing is registered behind |
| PollTables.RemoveAlone | bounce/poll_poller.cc:77-96 | removal works while no other slot is muted |
| PollTables.ReadyOnce | bounce/poll_poller.cc:22-34 | a descriptor is reported if and only if it is registered and its slot's revents are positive, once, in the order of the slots |
| Pollers.PollPoller.Poll | bounce/poll_poller.cc:19-42 | a channel gets its slot's revents exactly if they are positive and keeps its own otherwise; the active list holds the channels of exactly those descriptors, in slot order |
| Pollers.ActiveExactly | bounce/poll_poller.cc:19-42 | the active list has one channel for every registered descriptor with positive revents, no other, in the order of the slots |
| Pollers.PollPoller.UpdateChannel | bounce/poll_poller.cc:44-75 | array, map and the index stored in the channel follow the specification |
| Pollers.PollPoller.RemoveChannel | bounce/poll_poller.cc:77-96 | likewise, with a failed lookup reported exactly when the specification has one |
| TimerSafety.RoundFires | bounce/timer_queue.cc:61-95 | for every script of additions, a round fires exactly the due one-shot timers and then exactly the due repeat timers, in order of expiration, if and only if no callback of a due repeat timer adds one between its own entry and where the walk stops |
| TimerSafety.RoundKeepsAll | bounce/timer_queue.cc:81-94 | every repeat timer in the map during a round is in it afterwards, if and only if no callback of the walk adds one that expires before the callback's own timer |
| TimerSafety.FiresEarly | bounce/timer_queue.cc:84-88 | a run in which an added repeat timer fires before its first time |
| TimerSafety.AddedAndLost | bounce/timer_queue.cc:84-89 | a run in which an added repeat timer is erased without having fired |
| TimerSafety.NotArmed | bounce/timer_queue.cc:110-120 | a run in which a timer is stored and the descriptor disarmed |
| TimerSafety.DueExactly | bounce/timer_queue.cc:71-82 | the entries below the upper bound are those whose expiration has come |
| TimerSafety.KeysAndSchedule | bounce/timer_queue.cc:27-95 | over every run, keys are current expirations in order, and a repeat timer is at start plus one period for every firing |
| TimerSafety.ArmedInTime | bounce/timer_queue.cc:97-128 | over every run, while a timer is stored, min is no later, and with the clock of the last round or addition that set the descriptor, it has gone off or is armed for min if that was to come, and for 10 ns after that clock if it had gone by; it is disarmed if and only if the two are the same |
| TimerSafety.GoesOff | bounce/timer_queue.cc:97-128 | over every run, once a stored timer's time has come and 10 ns have passed since the descriptor was set, it has gone off, but for that one exception |
| TimerSafety.ResetArms | bounce/timer_queue.cc:97-128 | the descriptor is armed for min if min is later than the clock of the call, for 10 ns after that clock if earlier, disarmed if equal, and left alone with nothing stored |
| TimerSafety.SetTimeExact | bounce/timer_queue.cc:110-120 | seconds and nanoseconds add up to the difference, are in range, and disarm exactly at zero |
| TimerSafety.ResetKeeps | bounce/timer_queue.cc:97-128 | min becomes the least stored expiration, or stays at the maximum; the maps, the timers and the log stay |
| TimerSafety.WithoutExactly | bounce/timer_queue.cc:47-59 | erasing takes out the target's entry if it is there and no other entry |
| TimerSafety.DeleteExactly | bounce/timer_queue.cc:47-59 | a deletion leaves in the repeat map exactly the entries of other timers, and one-shot timers, min, descriptor and log as they were |
| TimerSafety.StepKeeps | bounce/timer_queue.cc:27-128 | adding, deleting, a round and waiting keep the keys, the schedule, min and the descriptor |
| TimerSafety.HandleReadKeeps | bounce/timer_queue.cc:61-95 | a round keeps them whatever its callbacks add |
| TimerHistory.OneShots | bounce/timer_queue.cc:61-95 | over every run, a callback has run as often as the timer's record says, and a one-shot timer has fired once if it is no longer stored and not at all while it is |
| TimerHistory.FiresOnce | bounce/timer_queue.cc:18-95 | an added one-shot timer is stored or has fired once, never both, whatever else happens, a deletion included |
| TimerHistory.NeverAgain | bounce/timer_queue.cc:41-59 | once a repeat timer is deleted, its callback does not run again, whatever else happens |
| TimerHistory.StaysStored | bounce/timer_queue.cc:27-95 | a repeat timer is stored from its addition on, until it is deleted or a callback adds a repeat timer for a time before its own timer's |
| TimerHistory.AdditionsMade | bounce/timer_queue.cc:61-95 | the timers that the callbacks of a round ask for are made, in the order in which the callbacks run, and no others |
| TimerHistory.RoundReads | bounce/timer_queue.cc:61-69 | a round reads the descriptor: it has not gone off again before time passes |
| TimerSettling.RoundLess | bounce/timer_queue.cc:81-94 | a round whose callbacks add nothing leaves no one-shot timer due and lessens the total time overdue by at least one for every due repeat timer |
| TimerSettling.Settles | bounce/timer_queue.cc:81-94 | repeated such rounds at a fixed time reach a state in which nothing is due |
| TimerSettling.SettlesAfter | bounce/timer_queue.cc:61-95 | so do rounds whose callbacks add any finite number of timers in all |
| TimerQueueObject.TimerQueue.AddTimerInLoop | bounce/timer_queue.cc:27-39 | the object's maps, min and descriptor follow the specification |
| TimerQueueObject.TimerQueue.DeleteTimerInLoop | bounce/timer_queue.cc:47-59 | the scan from the lower bound finds the target exactly if it is stored: the map then holds the entries of all other timers |
| TimerQueueObject.TimerQueue.HandleRead | bounce/timer_queue.cc:61-95 | the loops over one-shot timers, live repeat map and updates refine the specification |
| TimerQueueObject.TimerQueue.ResetTimerfd | bounce/timer_queue.cc:97-128 | the descriptor armed for the least expiration if that is later than the clock, 10 ns after the clock if earlier, disarmed if equal |
| TimerQueueObject.TimerQueue.MoveOn | bounce/timer.cc:13-17 | timerUpdate adds a period exactly if there is one, and the entry goes in under the new time |
| TimerQueueObject.TimerQueue.RunRepeated | bounce/timer_queue.cc:84-89 | the walk with two iterators into the live map, which inserted entries push back |
| Buffers.StepShape | bounce/buffer.cc:20-64 | no operation loses or invents a byte; an append leaves the size at most max(size, init/2 + readable + 2 len) |
| Buffers.RunSize | bounce/buffer.cc:20-64 | over a whole run the storage is bounded by what is stored at any time, however much passes through |
| Buffers.RunBytes | bounce/buffer.cc:20-64 | over a whole run, what is readable is what came in and has not been taken |
| Buffers.AppendExactly | bounce/buffer.cc:20-39 | when an append moves what is readable and when it grows, both ways: growing means that the message would not fit behind half the initial size |
| Buffers.RetrieveExactly | bounce/buffer.h:115-122 | taking bytes leaves the rest where it is, and taking all starts over at the front |
| Buffers.DecodeEncode | bounce/buffer.h:68-107 | every integer that fits, negative ones included, comes back as it was written, least byte first |
| Buffers.FitsExactly | bounce/buffer.h:68-107 | what fits 1, 2 and 4 bytes are the values of the three types |
| Buffers.Buffer.Append | bounce/buffer.cc:20-26 | the bytes go to the end of the queue, and the layout is the one the bound is about |
| Buffers.Buffer.MakeSpace | bounce/buffer.cc:30-39 | shift and growth keep the contents |
| Buffers.Buffer.MoveToFront | bounce/buffer.cc:31-35 | the copy onto itself keeps the readable bytes |
| Buffers.Buffer.ReadFd | bounce/buffer.cc:41-64 | the bytes of both segments arrive in order; a failed read changes nothing |
| Buffers.Buffer.ReadAsString | bounce/buffer.cc:66-80 | takes the given number of bytes, or all there are, from the front |
| Buffers.Buffer.Retrieve | bounce/buffer.h:115-122 | drops them |
| Buffers.Buffer.WriteInt | bounce/buffer.h:96-107 | appends the bytes of the integer as memory holds them |
| Buffers.Buffer.PeekInt | bounce/buffer.h:68-88 | gives back any integer whose bytes are in front, and 0 if there are too few bytes |
| FixedPointItoa.StartScaled | deps/spdlog/fmt/bundled/format.h:976-980 | for every u of the length, the scaled number is within [u, u+1) and the product fits in 64 bits |
| FixedPointItoa.NextDigits | deps/spdlog/fmt/bundled/format.h:982-989 | multiplying the fraction by a power of ten gives the next digits and leaves the fraction scaled for the rest |
| FixedPointItoa.DecimalFormatter.On | deps/spdlog/fmt/bundled/format.h:968-992 | writes exactly the N+1 digits of u, moves past them and touches no other cell |
| FixedPointItoa.DecimalFormatter.Format | deps/spdlog/fmt/bundled/format.h:942-953 | the comparisons pick the handler of the length of u, for every 32-bit u |
| FixedPointItoa.DecimalFormatter.WritePair | deps/spdlog/fmt/bundled/format.h:961-963 | two digits from the table, and no other cell |
| Digits.Pairs | deps/spdlog/fmt/bundled/format-inl.h:255-260 | the table holds every number below a hundred in two digits |
| DigitCounting.CountIsExact | deps/spdlog/fmt/bundled/format.h:904-909 | the estimate from the bit length, corrected by the table, counts the digits of every 64-bit number |
| DigitCounting.CountByDivision | deps/spdlog/fmt/bundled/format.h:912-925 | so does the loop, of every number |
| IntegerText.FormatDecimal | deps/spdlog/fmt/bundled/format.h:1054-1078 | fills exactly the given cells with the digits, grouped if asked, and touches no other |
| IntegerText.ThousandsSep.Call | deps/spdlog/fmt/bundled/format.h:1038-1044 | writes the separator after every third digit |
| IntegerText.GroupedLength | deps/spdlog/fmt/bundled/format.h:1024-1045 | a grouped text has (digits - 1) / 3 separators |
| IntegerText.WrittenAll | deps/spdlog/fmt/bundled/format.h:1054-1078 | what is written from the right, digit by digit, is the text grouped in threes |
| IntegerText.FormatInt.constructor | deps/spdlog/fmt/bundled/format.h:3056-3069 | holds the decimal text of every signed 64-bit value, the least one included |
| IntegerText.FormatInt.Unsigned | deps/spdlog/fmt/bundled/format.h:3070-3072 | holds the decimal text of every unsigned 64-bit value |
| IntegerText.SignedValue | deps/spdlog/fmt/bundled/format.h:3056-3069 | the text of a negative number is a minus sign and digits that denote its magnitude, of any other digits that denote it; no leading zero |
| IntegerText.FormatBackward | deps/spdlog/fmt/bundled/format.h:3035-3054 | the backward writer writes exactly the digits |
| IntegerText.ParseNonnegativeInt | deps/spdlog/fmt/bundled/format.h:1597-1615 | reads the whole run of digits, with an error if and only if it denotes more than INT_MAX, and no 32-bit step overflows |
| IntegerText.WriteRead | deps/spdlog/fmt/bundled/format.h:1597-1615 | the run the parser finds in a written number denotes that number, whatever follows it |
| HandmadeFp.MultiplyRounds | deps/spdlog/fmt/bundled/format-inl.h:433-442 | the product of every two 64-bit significands is rounded to nearest, ties up, though every step wraps |
| GrisuDigits.GenDigits | deps/spdlog/fmt/bundled/format-inl.h:458-512 | both loops end, no 64-bit step overflows, and the digits are upper cut off at the first place where the loss is within delta |
| GrisuDigits.GenFraction | deps/spdlog/fmt/bundled/format-inl.h:499-511 | the same of the loop over the fraction |
| GrisuDigits.Within | deps/spdlog/fmt/bundled/format-inl.h:458-512 | that number is at most upper, and within delta of it |
| FormatStrings.ParseScans | deps/spdlog/fmt/bundled/format.h:2147-2198 | the scanner that looks for either brace first tells its handler what one pass from left to right would, errors included |
| FormatStrings.ScanRender | deps/spdlog/fmt/bundled/format.h:2147-2198 | a template of characters and arguments, rendered with doubled braces, scans back to itself |
| FormatStrings.RenderScan | deps/spdlog/fmt/bundled/format.h:2147-2198 | and whatever is accepted is the rendering of what it scans to |
| FormatStrings.Escaping | deps/spdlog/fmt/bundled/format.h:2147-2198 | every text with its braces doubled raises no error, asks for no argument, and comes out as itself |
| FormatStrings.ParseFormatString | deps/spdlog/fmt/bundled/format.h:2165-2197 | the loop calls the handler as the recursive form says |
| FormatStrings.WriteText | deps/spdlog/fmt/bundled/format.h:2150-2162 | the inner loop likewise |
| Rings.Conservation | deps/spdlog/details/circular_q.h:26-55 | over every run of any capacity, 0 included, items leave in push order, each once, pushes are pops plus length plus overruns, and a push overruns if and only if the capacity is used up |
| Rings.CircularQ.constructor | deps/spdlog/details/circular_q.h:19-23 | an empty ring of the given capacity |
| Rings.CircularQ.PushBack | deps/spdlog/details/circular_q.h:26-36 | the indices and slots refine a bounded sequence that drops its oldest item |
| Rings.CircularQ.PopFront | deps/spdlog/details/circular_q.h:40-44 | takes the oldest item |
| Rings.CircularQ.IsEmpty | deps/spdlog/details/circular_q.h:46-49 | equal indices mean an empty ring |
| Rings.CircularQ.IsFull | deps/spdlog/details/circular_q.h:51-55 | full if and only if the next push drops an item |
| Rings.OverrunSlot | deps/spdlog/details/circular_q.h:26-36 | storing in the last free slot and moving the head drops exactly the oldest item |
| BlockingQueues.MpmcBlockingQueue.Enqueue | deps/spdlog/details/mpmc_blocking_q.h:35-43 | goes on exactly if there is room, and never overruns |
| BlockingQueues.MpmcBlockingQueue.EnqueueNowait | deps/spdlog/details/mpmc_blocking_q.h:46-53 | pushes at once |
| BlockingQueues.MpmcBlockingQueue.DequeueFor | deps/spdlog/details/mpmc_blocking_q.h:57-69 | takes the front item, or nothing exactly from an empty queue |
| ThreadPools.Drained | deps/spdlog/details/thread_pool.h:141-158 | after every run in which all threads have exited the queue is empty and each message was handled or dropped; all were handled if and only if nobody posted to a full queue without waiting; a single thread handles them in order |
| ThreadPools.DestructorReturns | deps/spdlog/details/thread_pool.h:141-158 | from every point of every run the destructor can finish if and only if the queue can hold a message |
| ThreadPools.WaitedHandled | deps/spdlog/details/thread_pool.h:184-194 | after every run in which all threads have exited, every message whose poster waited was handled if and only if no post that does not wait found the queue full with such a message as its oldest; what was handled is what was taken |
| ThreadPools.ExitIs | deps/spdlog/details/circular_q.h:26-36 | the k-th message to leave the queue is dropped, and not taken, exactly if a post that does not wait finds the queue full just then |
| ThreadPools.AnySchedule | deps/spdlog/details/thread_pool.h:141-158 | however the threads are scheduled it takes a bounded number of steps, timed-out waits apart, and until it is done a next one is enabled |
| ThreadPools.StepShorter | deps/spdlog/details/thread_pool.h:141-158 | every step of a running destructor lessens 3 unposted + 2 queued + busy |
| ThreadPools.PosterUnblocked | deps/spdlog/details/mpmc_blocking_q.h:35-43 | over every run, whoever waits for room waits for a thread that still runs and can take a step |
| ThreadPools.OverrunOnly | deps/spdlog/details/thread_pool.h:184-194 | a message is dropped exactly by a post that does not wait, on a full queue |
| ThreadPools.BlockedPostLost | deps/spdlog/details/thread_pool.h:184-194 | a message whose poster waited can be dropped later |
| ThreadPools.StepKeeps | deps/spdlog/details/thread_pool.h:184-234 | messages stay in posting order with the destructor's behind all others, and each is queued, dropped, handled or in a thread's hands |
| ThreadPools.StartOk | deps/spdlog/details/thread_pool.h:124-138 | a pool starts if and only if it is asked for 1 to 1000 threads |
| ThreadPoolObject.ThreadPool.PostAsyncMsg | deps/spdlog/details/thread_pool.h:184-194 | the object takes the pool's step, or waits, as the policy says |
| ThreadPoolObject.ThreadPool.ProcessNextMsg | deps/spdlog/details/thread_pool.h:204-234 | takes a message and is done with it; false exactly for the destructor's |
| ThreadPoolObject.ThreadPool.WorkerLoop | deps/spdlog/details/thread_pool.h:196-199 | the loop of a thread left alone |
| ThreadPoolObject.RoundsHandle | deps/spdlog/details/thread_pool.h:196-234 | it handles, in order, the messages up to the first that tells it to exit, and takes no further one |

## Left out

- Sockets, addresses, acceptor and connector: their results are free inputs. `accept` is taken to succeed.
- `bounce/loop_threadpool.cc`, `bounce/event_loop_thread.cc`: which loop a new connection gets is arbitrary.
- `send`, `shutdown` and `forceClose` are steps that nothing interrupts; memory ordering and races on `thread_id_` are not part of this model.
- A connection is a value in the server's protocol and an object only in its own; the two models share the states, the event masks and the dispatch order.
- User callbacks act only through the calls they make back into a connection, a loop or a timer queue, each of which is a step of its own.
- `Buffer::readInt8`, `readInt16` and `readInt32` (`bounce/buffer.h:124-144`): they advance before they peek, so that they do not give back what was written. Retrieving after peeking is modelled.
- The capacity of memory, the ends of `size_t` and the largest value of an eventfd counter.
- TimerSafety.KeysAndSchedule: times are unbounded integers, so that `expiration_ += duration_` does not overflow; the system clock and the clock of the descriptor are one.
- TimerSettling.RoundLess: of rounds whose callbacks add nothing, since an added timer can be due; `SettlesAfter` allows additions.
- TimerSettling.SettlesAfter: additions without end are excluded, since a callback that always adds a due timer never settles; so are negative periods.
- PollTables.RunKeeps: the encoding needs that no channel is inserted that is interested in nothing, as `UpdateKeeps` shows; the bijection does not (`RunBijective`).
- ServerPollers.PollerDown: the loop's own channels, for timers, wake-ups and accepting, stay registered and interested in something.
- FormatStrings.ParseScans: the parsers of argument ids and format specs are an arbitrary function that accepts up to some character or fails; which error message each of their failures carries is not told apart.
- Grisu's choice of a cached power, `compute_boundaries` and the rest of `grisu2_format_positive`, which use `double`.
- The second `format_decimal`, through an iterator, and the 32-bit `count_digits`, which has the same shape as the 64-bit one.
- Condition variables are guards: a waiting thread goes on whenever its predicate holds. A timed-out wait is a step that changes nothing.
- Every worker is alive from the start; starting threads and what sinks, formatters and registries do with a message are not part of this model.
