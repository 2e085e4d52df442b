# Verification of the myTinymuduo reactor library

A Dafny model of the parts of the library that carry state and interleavings, with proofs about
every run of them. `dafny verify dfyconfig.toml` checks the whole project.

| file | part of the library |
|---|---|
| `EventLoop.dfy` | task hand-off between threads: the pending vector, its mutex and the eventfd |
| `Timers.dfy` | the timer queue: two indexes, the batch in flight, timer ownership, the timerfd |
| `AsyncLogging.dfy` | the double-buffered logger |
| `BlockQueue.dfy` | the linked queue with a dummy node and two locks |
| `Connection.dfy` | a connection's output stream and graceful shutdown |
| `Server.dfy` | the life of connections over a base loop and io loops |
| `Poller.dfy` | channels, the poller's map and the kernel's interest set |
| `ByteBuffer.dfy` | the index-based byte buffer |
| `Http.dfy` | the streaming request parser and the response printer |
| `LogStream.dfy` | integer formatting and the fixed buffer |
| `Prelude.dfy` | shared definitions |

## How a part is modelled

Concurrent parts are step relations. A state holds the source's fields, a program counter where
one is needed, and a few history fields that only an observer sees. An action is one step that a
lock or a thread makes atomic. `Next` is total: an action that is not possible where it stands
does nothing, so every sequence of actions is a run, and a lemma about `Exec(INIT, acts)` for all
`acts` is a lemma about every interleaving. A class beside the step relation carries the same
steps out on mutable fields, with the source's branches and loops, and each of its methods is
proved to reach exactly the state that the step relation says. Sequential parts (the buffer, the
formatter, the parser and printer) are classes and methods proved against functions, and the
properties are lemmas about those functions.

What the operating system decides is a parameter or a free choice of the run: which events a poll
returns, how many bytes a write takes and with which error, what the clock reads, which address
an allocation returns. One fact of it is built in: once `shutdownwrite` has shut the write side of
a socket down (myTinymuduo/resoure/Socket.cpp:37-41), no write takes a byte.

## Where the code and its intent differ

The model follows the code except in the points below, where the code contradicts its own
comments or asserts; each states both, where both can be stated.

- `Buffer::makeSpace` reserves capacity where the drawn invariant needs the size to grow. The
  class grows the size; `ByteBuffer.AppendAsWrittenIff` says exactly when the statement as written
  keeps the indices in order.
- `AsyncLogging::threadFunc` resets the recycled pointers instead of emptying the buffers, and
  `reserve(2)` truncates nothing. The model empties and truncates; the statements as written have
  a step relation of their own, over whose runs `AsyncLogging.NullFromSecondExchange` and
  `AsyncLogging.BackSafeIff` say exactly what goes wrong and when.
- `stop` does not drain the front buffers, so the file is proved to be a prefix of what was logged.
- `TimerQueue::getExpired` takes every entry up to the first key that is not below the sentry, and
  follows `end()` when there is none. That case is read as "take all"; the early entries are kept,
  and `Timers.CutTakesOnlyDueIff` says exactly when the cut takes nothing that is not due.
- `Timer::repeat_` is computed from the expiration; it is a free constant of each timer here.
- `Timestamp::now` counts seconds and `addTime` adds microseconds; one integer unit is used.
- `sendInLoop` logs "give up writing" and continues. An option `givesUp` in `Connection` and in
  `Server` selects either form and the theorems are about both; `Connection.AsWrittenIff` gives the
  difference in one call, and `Server.AssertionHoldsIff` what it does to a closed connection.
- `send` from another thread binds a pointer to the caller's bytes; the model copies the bytes.
- `parseRequest` loops forever when entered in the final state, so it must not be. The byte after
  the blank line may lie past the data; either value of it leads to the final state.
- `loop()` clears `quit_` on entry, and tasks that the owning thread queued before it get no
  wakeup; runs start with an empty queue.

## Model

| member | source | states |
|---|---|---|
| `EventLoop.NoLostWakeup` | myTinymuduo/resoure/Eventloop.cpp:48-143 | in every interleaving, while the loop runs its batch, is at its test or in poll, a non-empty pending queue (or, in poll, a quit) implies a positive eventfd counter or a caller on its way to the wakeup write |
| `EventLoop.ExactlyOnceInOrder` | myTinymuduo/resoure/Eventloop.cpp:88-143 | at every step, executed ++ rest of batch ++ pending are the tasks handed over, told from the calls of the run alone and in their order, and the batch is exactly the prefix present at the swap |
| `EventLoop.BatchIsFixed` | myTinymuduo/resoure/Eventloop.cpp:132-143 | until a call of doPendingFunctors ends, what it ran and will run is what it swapped out, whatever is pushed meanwhile |
| `EventLoop.OneTurnRunsEverythingPushed` | myTinymuduo/resoure/Eventloop.cpp:48-65 | a loop blocked in poll with queued work and no caller in flight can return on the eventfd, and one turn then runs everything pushed |
| `EventLoop.QuitIsForGood` | myTinymuduo/resoure/Eventloop.cpp:52-72 | in every continuation of a quit() the flag stays set, the loop enters no poll again, at its test it can only leave, and a foreign caller owes its wakeup until it writes |
| `EventLoop.WakeupOwedIff` | myTinymuduo/resoure/Eventloop.cpp:94-97 | in every run a push owes a wakeup exactly when it comes from another thread or from a functor that the loop is running |
| `EventLoop.Eventloop.PushFunctor` | myTinymuduo/resoure/Eventloop.cpp:88-95 | the locked push and the decision whether the caller must wake the loop keep the invariant and are the push step |
| `EventLoop.Eventloop.WakeupWrite` | myTinymuduo/resoure/Eventloop.cpp:113-121 | the write leaves the counter positive, even when it is full |
| `EventLoop.Eventloop.SetQuit` | myTinymuduo/resoure/Eventloop.cpp:67-72 | the flag is set before anything else, and a call from another thread owes a wakeup |
| `EventLoop.Eventloop.QueueInLoop` | myTinymuduo/resoure/Eventloop.cpp:88-98 | with any calls of others between the unlock and the write, the task is queued right after what was pushed before and the caller owes no wakeup at the end |
| `EventLoop.Eventloop.SwapOut` | myTinymuduo/resoure/Eventloop.cpp:135-138 | the batch becomes the whole pending queue, which becomes empty |
| `EventLoop.Eventloop.RunFirst` | myTinymuduo/resoure/Eventloop.cpp:139-141 | the oldest task of the batch runs and leaves it |
| `EventLoop.Eventloop.EndCalling` | myTinymuduo/resoure/Eventloop.cpp:142-143 | at the end exactly the tasks pushed before the swap have run and exactly the later ones wait |
| `EventLoop.Eventloop.DoPendingFunctors` | myTinymuduo/resoure/Eventloop.cpp:132-143 | with callers acting before the lock and after each functor: everything pushed before the call has run, nothing pushed after the swap has, and the order is kept |
| `EventLoop.Eventloop.LoopOnce` | myTinymuduo/resoure/Eventloop.cpp:52-62 | a turn with quit set only stops; any other turn has executed everything that was pushed when it began |
| `Timers.IndexesAgree` | myTinymuduo/resoure/TimerQueue.cpp:117-230 | through every run, with adds and cancels nested in callbacks, both indexes hold the same timers under their current expirations, in-flight timers are in neither, sizes agree, and every timer object has an owner |
| `Timers.CancelIsFinalIff` | myTinymuduo/resoure/TimerQueue.cpp:211-230 | after a cancel the timer runs in no later round of any continuation, if and only if its queued insertion had already been performed |
| `Timers.DeletedForGood` | myTinymuduo/resoure/TimerQueue.cpp:170-182 | a deleted timer never becomes live again and never runs again, whatever happens and whatever addresses are reused |
| `Timers.StaleIdIsHarmless` | myTinymuduo/resoure/TimerQueue.cpp:211-230 | cancelling an id whose timer is gone changes no later state beyond the mark itself, even if the address is in use again |
| `Timers.NumberComesBackIff` | myTinymuduo/resoure/TimerQueue.cpp:96-102 | addTimer, which reads the number after it has handed the timer over, gets the timer's own number whatever the loop does meanwhile, if and only if the timer is live, repeats, and is not about to be deleted by the round in progress |
| `Timers.PutBackIff` | myTinymuduo/resoure/TimerQueue.cpp:170-209 | a timer that a round takes is put back into both indexes at its end, for the reading at the top of the round plus the interval, if and only if it repeats and no cancel named it during the round; otherwise it is deleted |
| `Timers.TimerLife` | myTinymuduo/resoure/TimerQueue.cpp:106-230 | the one operation that restarts a timer and the two that delete it, from any state that the invariant allows; every other leaves it exactly as it is, and an add indexes it under its expiration |
| `Timers.ResetPutsBack` | myTinymuduo/resoure/TimerQueue.cpp:172-182 | over the whole loop of reset, whatever else is in the batch: a repeating, unmarked timer expires next at now plus its interval, any other of the batch is gone |
| `Timers.LoadMakes` | myTinymuduo/resoure/Timer.h:24-33 | a timer starts with the expiration, interval and repetition it was asked for and the number that was loaded, and its insertion is queued |
| `Timers.AlarmCoversFirstTimer` | myTinymuduo/resoure/TimerQueue.cpp:106-113 | between calls of handleRead, whenever a timer waits, the timerfd has been armed for no later than the earliest expiration, up to the 100-unit floor |
| `Timers.AlarmIsSetFor` | myTinymuduo/resoure/TimerQueue.cpp:106-193 | no operation sets the timerfd for anything but the timer that is then the first, up to the floor: an add that became the first, a finished round with a positive first expiration; a round switches it off, all else leaves it alone |
| `Timers.TimespecLosesNothing` | myTinymuduo/resoure/TimerQueue.cpp:25-38 | the seconds and nanoseconds are normalised, never both zero, and give back the deadline exactly |
| `Timers.CutTakesAllDue` | myTinymuduo/resoure/TimerQueue.cpp:142-157 | what getExpired takes is downward closed and contains every timer that is due |
| `Timers.CutTakesOnlyDueIff` | myTinymuduo/resoure/TimerQueue.cpp:148-157 | it takes nothing that is not due exactly when all timers are due or some key due at now lies beyond the sentry |
| `Timers.EarlyRunExample` | myTinymuduo/resoure/TimerQueue.cpp:150-157 | a timer set for time 50 is taken at time 10 |
| `Timers.LowerBound` | myTinymuduo/resoure/TimerQueue.cpp:150 | everything before the position is below the key and the entry there is not |
| `Timers.InsertSorted` | myTinymuduo/resoure/TimerQueue.cpp:128 | insertion adds one entry, keeps the order and all others, and its first entry is the new one exactly when it precedes the old first |
| `Timers.Erase` | myTinymuduo/resoure/TimerQueue.cpp:218 | erasing keeps the order and removes exactly the given entry |
| `Timers.StepKeepsInv` | myTinymuduo/resoure/TimerQueue.cpp:106-230 | every operation keeps index agreement, single ownership of timers and the freshness of numbers |
| `Timers.ResetAllKeepsCore` | myTinymuduo/resoure/TimerQueue.cpp:170-183 | resetting a whole batch keeps index agreement and single ownership |
| `Timers.TimerQueue.InsertTimer` | myTinymuduo/resoure/TimerQueue.cpp:117-140 | both insertions succeed, and the result says whether the timer became the earliest |
| `Timers.TimerQueue.AddTimer` | myTinymuduo/resoure/TimerQueue.cpp:106-113 | the timer moves from its queued functor into both indexes and the alarm is set exactly when it became the earliest |
| `Timers.TimerQueue.Cancel` | myTinymuduo/resoure/TimerQueue.cpp:211-230 | an indexed timer leaves both indexes and is deleted, the erase finds it, and otherwise it is marked only during callbacks |
| `Timers.TimerQueue.CopyExpired` | myTinymuduo/resoure/TimerQueue.cpp:153-157 | the first loop copies exactly the entries up to the cut |
| `Timers.TimerQueue.EraseExpired` | myTinymuduo/resoure/TimerQueue.cpp:158-163 | the second loop removes exactly those from both indexes |
| `Timers.TimerQueue.GetExpired` | myTinymuduo/resoure/TimerQueue.cpp:142-167 | the two loops move the cut prefix out of both indexes |
| `Timers.TimerQueue.ResetFirst` | myTinymuduo/resoure/TimerQueue.cpp:172-182 | a repeating, unmarked timer is restarted from the reading of the round and indexed again, any other is deleted, as ResetPutsBack and PutBackIff describe |
| `Timers.TimerQueue.Reset` | myTinymuduo/resoure/TimerQueue.cpp:170-193 | the loop resets the whole batch through valid pointers and re-arms the alarm for the first timer with a positive expiration |
| `Timers.TimerQueue.CountTimer` | myTinymuduo/resoure/Timer.h:24-31 | the increment in a constructor is a step of its own |
| `Timers.TimerQueue.LoadNumber` | myTinymuduo/resoure/Timer.h:32 | the later load numbers the timer, which other constructors may have overtaken |
| `Timers.TimerQueue.ReadNumber` | myTinymuduo/resoure/TimerQueue.cpp:101 | the read of the number is a step of its own, through a pointer that may dangle by then |
| `Timers.TimerQueue.RunTimer` | myTinymuduo/resoure/TimerQueue.cpp:203-206 | the callback is read through a pointer to a timer that still exists |
| `Timers.TimerQueue.HandleRead` | myTinymuduo/resoure/TimerQueue.cpp:196-209 | with callbacks that add, cancel and construct, the call is a run of the queue, and runs the callbacks of the batch once each and in order |
| `AsyncLogging.NothingLostOrReordered` | myTinymuduo/base/Aslogging.cpp:26-104 | at every step of every interleaving, file ++ unwritten back buffers ++ full buffers ++ current buffer are the accepted lines in lock order, so the file is a prefix |
| `AsyncLogging.SparesSuffice` | myTinymuduo/base/Aslogging.cpp:58-102 | the current buffer is never null under the lock, a missing next buffer implies full buffers, back and pop_back are always safe, and both spares are present and empty at each loop head |
| `AsyncLogging.FileIsLastExchange` | myTinymuduo/base/Aslogging.cpp:58-106 | in every run, outside the writing of a turn the file is exactly what was logged when the writer last took the lock |
| `AsyncLogging.LoggedIsAccepted` | myTinymuduo/base/Aslogging.cpp:26-45 | what appends record is exactly the lines shorter than a buffer, in order |
| `AsyncLogging.PutAsideIff` | myTinymuduo/base/Aslogging.cpp:29-42 | in every run an append puts the current buffer aside, behind the others and as it is, exactly when the line does not fit into it, and else extends it |
| `AsyncLogging.BuffersFit` | myTinymuduo/base/Aslogging.cpp:26-104 | every buffer in use, put aside, held by the writer or spare leaves a byte free |
| `AsyncLogging.StopIsForGood` | myTinymuduo/base/Aslogging.cpp:58-106 | in every continuation of stop no turn begins and the loop can be left at its head, and unless a turn was waiting there is no further exchange |
| `AsyncLogging.NullFromSecondExchange` | myTinymuduo/base/Aslogging.cpp:58-104 | over every run of the statements as written: the first spare is missing at every loop head but the first, the current buffer is null exactly from the second exchange on, there is no third, and nothing goes wrong before the second |
| `AsyncLogging.BackSafeIff` | myTinymuduo/base/Aslogging.cpp:89-101 | as written, the back() calls of a turn are safe exactly when it is the first turn, or its exchange found a full buffer, or found the second spare there and not needed |
| `AsyncLogging.EmptyBackExample` | myTinymuduo/base/Aslogging.cpp:96-98 | two lines that fill the front buffer in the first turn make the second turn call back() on an empty vector |
| `AsyncLogging.NullCurrentExample` | myTinymuduo/base/Aslogging.cpp:70-71 | without any line, the second exchange leaves a null current buffer, which the next append follows |
| `AsyncLogging.Logger.AppendLine` | myTinymuduo/base/Aslogging.cpp:26-45 | a line goes to the current buffer if it fits and else to a fresh one after the full one is put aside; the invariant is kept |
| `AsyncLogging.Logger.ExchangeBuffers` | myTinymuduo/base/Aslogging.cpp:65-77 | the locked block moves all full buffers and the current one to the writer and refills from the spares |
| `AsyncLogging.Logger.WriteNext` | myTinymuduo/base/Aslogging.cpp:79-82 | the next back buffer is appended to the file |
| `AsyncLogging.Logger.RecycleBuffers` | myTinymuduo/base/Aslogging.cpp:84-102 | the missing spares are refilled, emptied, from the written buffers, of which there are enough |
| `AsyncLogging.Logger.Turn` | myTinymuduo/base/Aslogging.cpp:58-104 | one turn ends with the file equal to everything logged before its exchange, while appenders go on |
| `AsyncLogging.Logger.ThreadFunc` | myTinymuduo/base/Aslogging.cpp:48-106 | the writer leaves its loop at the head, after stop; a stop during the wait still lets the turn be completed; the file is then what was logged when the writer last took the lock, and what is missing is exactly what the front buffers hold |
| `BlockQueue.PopsInPushOrderOnce` | myTinymuduo/base/blockqueue.h:23-127 | at the grain of field writes and any interleaving, popped ++ queued is pushed, each answer is the value of its pop, no pop is answered twice, and none is dropped: it has been answered, or exactly one thread is about to answer it |
| `BlockQueue.EveryPushEntersOnce` | myTinymuduo/base/blockqueue.h:93-106 | told from the calls alone: in every interleaving the value of every push call enters the queue exactly once and nothing else does, those of one thread in the order of its calls |
| `BlockQueue.HeadHasSuccessor` | myTinymuduo/base/blockqueue.h:28-39 | whenever head is not the tail its node has a value and a successor, and a non-empty test made under the head lock stays true until the thread acts |
| `BlockQueue.AnswerTrueInsideCall` | myTinymuduo/base/blockqueue.h:87-116 | an empty or non-empty answer was true at a step of that very call |
| `BlockQueue.CallsEnd` | myTinymuduo/base/blockqueue.h:34-116 | every way a call ends: try_pop without a value only after a comparison that found the queue empty, wait_and_pop only with a value, empty without touching the queue, and a value is that of the pop being answered |
| `BlockQueue.SomeThreadCanStep` | myTinymuduo/base/blockqueue.h:35-116 | while a call is in progress some thread can take its next step: the two locks do not deadlock |
| `BlockQueue.StepKeepsInv` | myTinymuduo/base/blockqueue.h:23-127 | every field write and lock step keeps lock ownership, the linked chain, the separation of private nodes and what each thread knows |
| `BlockQueue.ThreadsafeQueue.PushValue` | myTinymuduo/base/blockqueue.h:93-106 | the old dummy takes the value and a fresh node becomes the dummy; contents grow at the end |
| `BlockQueue.ThreadsafeQueue.PopHead` | myTinymuduo/base/blockqueue.h:28-33 | the first value leaves the front and the chain drops its first node |
| `BlockQueue.ThreadsafeQueue.TryPopValue` | myTinymuduo/base/blockqueue.h:73-77 | none exactly on an empty queue, else the first value |
| `BlockQueue.ThreadsafeQueue.IsEmpty` | myTinymuduo/base/blockqueue.h:87-91 | comparing head and tail decides emptiness |
| `Connection.StreamIsIntact` | myTinymuduo/resoure/TcpConnection.cpp:60-169 | in every run, wire ++ output buffer is the concatenation, in order, of all messages sent but those whose own write failed with EPIPE or ECONNRESET; what was sent is told from the calls alone, and the wire holds as many bytes as the writes returned; until a close the write interest is on exactly when the buffer is not empty |
| `Connection.WireIsWhatWasSent` | myTinymuduo/resoure/TcpConnection.cpp:60-169 | so the calls and the results of the writes determine the wire and the output buffer: one is the start of everything sent and not dropped, the other its rest |
| `Connection.StatusMoves` | myTinymuduo/resoure/TcpConnection.cpp:60-193 | which steps move the state, and where to: no send and no writable event does |
| `Connection.InterestByStatusIff` | myTinymuduo/resoure/TcpConnection.cpp:60-192 | until disconnected the write interest is on exactly when the buffer is not empty, in every run without a late store of kDisconnecting; and any next step keeps this if and only if it is not the store of shutdown() on another thread finding bytes that no write is pending for |
| `Connection.LateStoreExample` | myTinymuduo/resoure/TcpConnection.cpp:188-190 | such a store: shutdown() on another thread stores after a close that left a byte unsent |
| `Connection.CallbacksIff` | myTinymuduo/resoure/TcpConnection.cpp:68-163 | a step queues write-complete exactly when it wrote and everything accepted is then on the wire, and the high-water callback exactly on an upward crossing, with the new length |
| `Connection.GracefulShutdown` | myTinymuduo/resoure/TcpConnection.cpp:188-198 | with sends and shutdown() on any threads, in every run whose queued shutdownInLoop calls are orderly, shutdownwrite happens at most once, with every byte accepted before shutdown() on the wire, and on an unclosed connection that is shutting down it has happened or the pending write will perform it |
| `Connection.OrderlyIff` | myTinymuduo/resoure/TcpConnection.cpp:60-198 | orderly is exact: after any step of a run that was orderly so far, every orderly continuation stays safe if and only if the step is not a queued shutdownInLoop that finds no write pending although the write side was shut down before or bytes accepted before shutdown() are unsent |
| `Connection.OnLoopIsOrderly` | myTinymuduo/resoure/TcpConnection.cpp:117-198 | calls on the loop thread are orderly, whatever the writes return; when the write side is shut down the wire holds exactly the bytes accepted before shutdown(), and while shutting down that has happened exactly when the buffer is empty |
| `Connection.ShutdownIsHeeded` | myTinymuduo/resoure/TcpConnection.cpp:188-198 | a connected connection heeds shutdown(), on the loop thread or not: it is then shutting down, the write side is shut at once only if nothing is buffered, and in every orderly continuation never before all that was accepted until then is on the wire |
| `Connection.DrainShutsDown` | myTinymuduo/resoure/TcpConnection.cpp:66-78 | if bytes were queued, the writable event that drains them performs the shutdown |
| `Connection.ShutdownElsewhereExample` | myTinymuduo/resoure/TcpConnection.cpp:188-192 | shutdown() on another thread whose shutdownInLoop runs after the drain has the write side shut down twice |
| `Connection.AsWrittenIff` | myTinymuduo/resoure/TcpConnection.cpp:132-168 | without the missing return the two forms agree until the connection is disconnected, and then the write interest is turned on exactly when a message stays unwritten |
| `Connection.TcpConnection.SendInLoop` | myTinymuduo/resoure/TcpConnection.cpp:128-169 | the code's branches reach the state of the send step for every result of the write; StreamIsIntact says what such steps send |
| `Connection.TcpConnection.HandleWrite` | myTinymuduo/resoure/TcpConnection.cpp:60-90 | the same for a writable event, with partial writes, errors and the shutdown it may complete |
| `Connection.TcpConnection.Send` | myTinymuduo/resoure/TcpConnection.cpp:117-126 | a send on the loop thread acts only on a connected connection |
| `Connection.TcpConnection.Shutdown` | myTinymuduo/resoure/TcpConnection.cpp:188-193 | shutdown takes effect only on a connected connection |
| `Connection.TcpConnection.ShutdownInLoop` | myTinymuduo/resoure/TcpConnection.cpp:195-199 | the write side is shut down unless a write is pending |
| `Connection.TcpConnection.StoreState` | myTinymuduo/resoure/TcpConnection.cpp:190-191 | the store of shutdown() on another thread, which may come after the loop thread has moved on, queues shutdownInLoop |
| `Connection.TcpConnection.HandleClose` | myTinymuduo/resoure/TcpConnection.cpp:93-97 | a close disconnects and drops the write interest, leaving the buffered bytes unsent |
| `Server.ConnectionLives` | myTinymuduo/resoure/Tcpserver.cpp:39-93 | in every run of tame steps: the assertion never fails, each connection's first moment is its one UP, at most one DOWN, and destroyed at most once, after DOWN and out of the map; and until it is up, and between DOWN and destruction, the task it waits for is queued on the right loop |
| `Server.HandlersFindLiveConnections` | myTinymuduo/resoure/Channel.cpp:50-66 | in those runs every channel waiting to be handled belongs to a connection that is established, not down and held by the map, so its tie can be locked |
| `Server.EventCallsHandlers` | myTinymuduo/resoure/Channel.cpp:68-92 | for every mask, read and state: the close handler is called exactly on a hang-up without EPOLLIN, the error handler on EPOLLERR, the read handler on EPOLLIN or EPOLLPRI, the write handler on EPOLLOUT, in this order; a close leaves the connection disconnected without interest; a write that drains leaves the write interest off |
| `Server.CountCalls` | myTinymuduo/resoure/Channel.cpp:68-92 | each of those handlers is called once if its event is there and not at all otherwise, and DOWN is reported once for each close |
| `Server.SendTurnsOn` | myTinymuduo/resoure/TcpConnection.cpp:128-168 | after a send the write interest is on exactly when it was, or when bytes are left and the send did not give up; an interest it turns on is registered |
| `Server.OthersUntouched` | myTinymuduo/resoure/Tcpserver.cpp:39-93 | no step changes anything of a connection other than the one it is about |
| `Server.AssertionHoldsIff` | myTinymuduo/resoure/Tcpserver.cpp:86-93 | tame is exact: after any step of a run that was tame so far, the assertion holds through every tame continuation if and only if the step neither is an event with hang-up, no input, urgent data and an empty read, nor a sendInLoop that leaves bytes on a closed connection without giving up |
| `Server.UntameFails` | myTinymuduo/resoure/TcpConnection.cpp:128-168 | after such an event, or such a send that adds the closed channel to the poller again, tame steps alone (handlers, one hang-up, the base loop's tasks) make the assertion fail |
| `Server.NotBoth` | myTinymuduo/resoure/Channel.cpp:68-92 | both branches that may close run in one dispatch exactly for that combination |
| `Server.NewConnectionStarts` | myTinymuduo/resoure/Tcpserver.cpp:39-65 | a new connection takes the next number, belongs to the io loop it was given and is in the map under its name, address and number; it is up and reading at once only on the base loop, and else its establishment is queued on its own loop |
| `Server.NamesDiffer` | myTinymuduo/resoure/Tcpserver.cpp:42-45 | different connection numbers give different names: nothing is cut off and decimal text reads back |
| `Server.StepKeepsInv` | myTinymuduo/resoure/Tcpserver.cpp:39-93 | every tame step keeps: the map holds exactly the accepted and not yet removed connections, each unfinished connection has its one task queued on the right loop, only live connections have a channel in the poller, and only live channels wait for their handlers |
| `Server.TcpServer.NewConnection` | myTinymuduo/resoure/Tcpserver.cpp:39-65 | the new connection is named, put in the map and established at once or by a task of its io loop |
| `Server.TcpServer.RemoveConnection` | myTinymuduo/resoure/Tcpserver.cpp:82-84 | the removal runs at once on the base loop and is queued there otherwise |
| `Server.TcpServer.RemoveConnectionInLoop` | myTinymuduo/resoure/Tcpserver.cpp:86-93 | the connection leaves the map, the assertion on the erase is recorded, and the destruction goes to the io loop |
| `Server.TcpServer.RunPending` | myTinymuduo/resoure/Eventloop.cpp:139-141 | the oldest task of a loop runs |
| `Server.TcpServer.HandleActive` | myTinymuduo/resoure/Eventloop.cpp:57-59 | the next channel of the last poll is handled |
| `Server.TcpConnection.ConnectEstablished` | myTinymuduo/resoure/TcpConnection.cpp:171-177 | the connection goes up and its channel starts to read |
| `Server.TcpConnection.ConnectDestroyed` | myTinymuduo/resoure/TcpConnection.cpp:179-186 | DOWN is reported only if it was not before, and the channel is gone |
| `Server.TcpConnection.HandleClose` | myTinymuduo/resoure/TcpConnection.cpp:93-102 | DOWN, interest off, and the removal is requested, which on a base-loop connection completes inside the call |
| `Server.TcpConnection.HandleEventWithGuard` | myTinymuduo/resoure/Channel.cpp:68-92 | the four branches in their order, each on the state the earlier ones left; EventCallsHandlers says what that calls |
| `Server.TcpConnection.SendInLoop` | myTinymuduo/resoure/TcpConnection.cpp:128-168 | a send that leaves bytes turns the write interest on, which adds a channel that was deleted again |
| `Poller.PollerAgreesWithKernel` | myTinymuduo/resoure/EpollPoll.cpp:72-131 | for every run over any number of channels with one live channel per descriptor, the kernel's set is exactly the KAdded channels with their masks and pointers, KDeleted are in the map only, KNew in neither, and every epoll_ctl was legal |
| `Poller.StepKeepsAgreement` | myTinymuduo/resoure/EpollPoll.cpp:72-131 | each operation keeps that agreement from any state that has it |
| `Poller.ExactUnlessIdle` | myTinymuduo/resoure/EpollPoll.cpp:76-97 | registered channels remain exactly the interested ones, unless an update leaves no interest on a channel that is not registered |
| `Poller.NeverIdleExact` | myTinymuduo/resoure/EpollPoll.cpp:72-99 | so in every run without such updates a known channel is watched exactly while it wants something |
| `Poller.MaskIsWhatWasAsked` | myTinymuduo/resoure/Channel.h:56-60 | in every run the mask of a channel is exactly what was last asked for reading and last asked for writing since it was created |
| `Poller.IndexAfter` | myTinymuduo/resoure/EpollPoll.cpp:72-131 | an update registers its channel unless it takes the last interest of a registered one, and a removed channel is in neither table |
| `Poller.DisabledTwiceExample` | myTinymuduo/resoure/Channel.h:60 | disableAll twice registers the descriptor again with an empty mask |
| `Poller.MasksIndependent` | myTinymuduo/resoure/Channel.h:56-60 | disabling undoes enabling, reading and writing leave each other's bits alone, and disableAll leaves none |
| `Poller.EPollPoller.UpdateChannel` | myTinymuduo/resoure/EpollPoll.cpp:72-99 | the branches reach the new map, index and kernel set for each index and mask |
| `Poller.EPollPoller.RemoveChannel` | myTinymuduo/resoure/EpollPoll.cpp:120-131 | the channel leaves the map, and the kernel set if it was added |
| `Poller.Channel.EnableReading` | myTinymuduo/resoure/Channel.h:56 | the mask gains the read bits and the poller is updated |
| `Poller.Channel.DisableWriting` | myTinymuduo/resoure/Channel.h:59 | the mask loses the write bit and the poller is updated |
| `Poller.Channel.DisableAll` | myTinymuduo/resoure/Channel.h:60 | the mask becomes empty and the poller is updated |
| `Poller.Channel.Remove` | myTinymuduo/resoure/Channel.cpp:44-47 | the channel is removed from the poller |
| `ByteBuffer.Buffer.Run` | myTinymuduo/resoure/Buffer.h:36-139 | for every sequence of operations the readable bytes are those of a plain byte queue and the indices stay in order; an operation is skipped exactly when its assert fails (a retrieve or unwrite: exactly when the queue is shorter) or readv cannot return that much |
| `ByteBuffer.GrowsIff` | myTinymuduo/resoure/Buffer.h:53-178 | the array grows exactly when the bytes fit neither behind the writer nor after moving to the front, also for a read that spills over; it never shrinks; emptying the queue gives the prepend space back |
| `ByteBuffer.Buffer.Append` | myTinymuduo/resoure/Buffer.h:91-95 | the bytes go to the end and nothing else changes, whether or not space had to be made |
| `ByteBuffer.Buffer.Retrieve` | myTinymuduo/resoure/Buffer.h:53-60 | exactly the first bytes leave |
| `ByteBuffer.Buffer.RetrieveAsString` | myTinymuduo/resoure/Buffer.h:83-88 | the result followed by what remains is what was there |
| `ByteBuffer.Buffer.Prepend` | myTinymuduo/resoure/Buffer.h:134-139 | the bytes come before what was there |
| `ByteBuffer.Buffer.Unwrite` | myTinymuduo/resoure/Buffer.h:129-132 | exactly the last bytes leave |
| `ByteBuffer.Buffer.MoveDown` | myTinymuduo/resoure/Buffer.h:172-173 | copying to a lower, overlapping range keeps the content |
| `ByteBuffer.Buffer.MakeSpace` | myTinymuduo/resoure/Buffer.h:165-178 | there is room afterwards, the content is kept, and the assert before the compaction holds |
| `ByteBuffer.Buffer.ReadFd` | myTinymuduo/resoure/Buffer.cpp:6-29 | a read of any size, also one that spills into the second segment, appends exactly its bytes in order; a failed one changes nothing |
| `ByteBuffer.Buffer.WriteFd` | myTinymuduo/resoure/Buffer.cpp:31-39 | the bytes offered are the readable ones |
| `ByteBuffer.Buffer.FindCRLF` | myTinymuduo/resoure/Buffer.h:122-126 | the first CRLF of the readable bytes, or none |
| `ByteBuffer.AppendAsWrittenIff` | myTinymuduo/resoure/Buffer.h:165-168 | the reserving statement keeps reader, writer and size in order exactly when the growing branch is not taken |
| `ByteBuffer.AppendAsWrittenExample` | myTinymuduo/resoure/Buffer.h:40-42 | 2000 bytes into a new buffer then put the writer beyond the size, and the writable size wraps |
| `Http.ChunkingDoesNotMatter` | myTinymuduo/Http/Http_analyse.cpp:49-111 | however the input is split, also inside a CRLF, feeding the pieces until the final state gives the same request, state and leftover bytes as feeding the whole |
| `Http.ParseMore` | myTinymuduo/Http/Http_analyse.cpp:49-111 | parsing a part and then the leftover with the rest is parsing all |
| `Http.AcceptedIff` | myTinymuduo/Http/Http_analyse.cpp:8-46 | a request line is accepted exactly when it is a listed method, a space, a target without spaces, a space and HTTP/1.0 or HTTP/1.1 (section 3.1.1 of RFC 7230) |
| `Http.WellFormedAccepted` | myTinymuduo/Http/Http_analyse.cpp:8-46 | accepting a well-formed line sets its fields and nothing else; FieldsOfLine says from which parts |
| `Http.FieldsOfLine` | myTinymuduo/Http/Http_analyse.cpp:8-46 | whatever follows the second space: the path is the target up to its first question mark, the query the rest with that mark, without one the query stays; the version is set, and the line accepted, exactly for HTTP/1.0 and HTTP/1.1 |
| `Http.ReprintIff` | myTinymuduo/Http/HttpRequest.h:91-136 | the fields reprint the accepted line exactly when it has a query or the request held none before |
| `Http.MethodNameReads` | myTinymuduo/Http/HttpRequest.h:52-120 | the name of every listed method is read as that method |
| `Http.MethodOfPrints` | myTinymuduo/Http/HttpRequest.h:52-120 | an accepted method prints as it was read |
| `Http.LiteralNames` | myTinymuduo/Http/HttpRequest.h:52-120 | the seven method names and the two versions, literally |
| `Http.RequestReads` | myTinymuduo/Http/Http_analyse.cpp:49-111 | a whole request reads back: request line, header lines in any order and blank line give exactly those fields, and the body is left over |
| `Http.RejectedStays` | myTinymuduo/Http/Http_analyse.cpp:57-67 | a rejected request line stays in the buffer, whatever follows it |
| `Http.LineWithoutColonEnds` | myTinymuduo/Http/Http_analyse.cpp:77-93 | any header line without a colon is consumed and ends the parsing |
| `Http.TrimmedIff` | myTinymuduo/Http/HttpRequest.h:152-158 | the trimming leaves a value alone exactly when it neither starts with a blank nor ends with white space |
| `Http.TrimCuts` | myTinymuduo/Http/HttpRequest.h:149-158 | what trimming cuts is blanks in front and white space behind, and all of it |
| `Http.HeaderOfLine` | myTinymuduo/Http/HttpRequest.h:149-160 | the text before the first colon of a line is the key and the trimmed text after it the value; nothing else changes |
| `Http.HeaderLineParses` | myTinymuduo/Http/HttpRequest.h:149-160 | a printed header line sets its key to the trimmed value and nothing else |
| `Http.HeaderBlockReadsBack` | myTinymuduo/Http/HttpResponse.cpp:10-34 | parsing the printed header block, in any order of the map, recovers the connection headers and the map with trimmed values and leaves exactly the body (section 3.2 of RFC 7230) |
| `Http.HeadersReadBackIff` | myTinymuduo/Http/HttpResponse.cpp:25-33 | the map comes back unchanged exactly when all its values are trimmed |
| `Http.ContentLengthFitsIff` | myTinymuduo/Http/HttpResponse.cpp:18-20 | the length line survives its 32-byte buffer exactly for bodies of at most thirteen digits |
| `Http.StatusLineSplits` | myTinymuduo/Http/HttpResponse.cpp:5-11 | up to its first two spaces the status line is HTTP/1.1 and the status, and the message follows whole, for every 64-bit status |
| `Http.HeaderLineSplits` | myTinymuduo/Http/HttpResponse.cpp:26-32 | a printed header line is the key, a colon, one space and the value |
| `Http.AppendToBuffer` | myTinymuduo/Http/HttpResponse.cpp:5-35 | the output gains exactly the status line, the header block in the given order and the body |
| `Http.HttpAnalyse.ParseRequest` | myTinymuduo/Http/Http_analyse.cpp:49-111 | the loop terminates in the state, request and leftover bytes that the parsing function gives, and the result tells whether this call accepted the request line |
| `Http.HttpAnalyse.ProcessHeadRequest` | myTinymuduo/Http/Http_analyse.cpp:8-46 | the pointer walk, also on rejection, comes to what FieldsOfLine and AcceptedIff say of the line |
| `Http.HttpAnalyse.Reset` | myTinymuduo/Http/Http_analyse.h:31-36 | the parser starts over with an empty request |
| `Http.HttpRequest.AddHeader` | myTinymuduo/Http/HttpRequest.h:149-160 | the trimming loop stores exactly the trimmed value under the text before the first colon |
| `LogStream.TextReadsBack` | myTinymuduo/base/LogStream.cpp:13-33 | the text of every integer reads back as that integer, has digits only and no leading zero |
| `LogStream.TextFits` | myTinymuduo/base/LogStream.cpp:36-39 | the text of every signed or unsigned 64-bit value with its terminator fits the 48 bytes asked for |
| `LogStream.DigitStep` | myTinymuduo/base/LogStream.cpp:19-24 | with truncating division the table gives the right digit for remainders of either sign |
| `LogStream.PutDigits` | myTinymuduo/base/LogStream.cpp:19-24 | the do-while loop leaves the decimal digits of the magnitude in reverse |
| `LogStream.ReverseInPlace` | myTinymuduo/base/LogStream.cpp:31 | the range is reversed and nothing outside it changes |
| `LogStream.Convert` | myTinymuduo/base/LogStream.cpp:13-33 | the buffer holds the decimal text of any value, the minimum included, then a terminator, and the result is its length |
| `LogStream.FixedBuffer.Append` | myTinymuduo/base/LogStream.h:36-43 | a text is appended whole if it leaves a byte free, and else dropped whole, for every length that the cast does not let through without room |
| `LogStream.CastLetsThroughIff` | myTinymuduo/base/LogStream.h:38 | the cast to int lets no text through without room exactly when the text is shorter than 2^31 bytes or its cast length is not below what is available |
| `LogStream.CastExample` | myTinymuduo/base/LogStream.h:38 | a length of 2^31 is let through whatever room there is |
| `LogStream.FixedBuffer.FormatInteger` | myTinymuduo/base/LogStream.cpp:36-44 | a number is appended whole inside the buffer, or dropped whole when fewer than 48 bytes are left |
| `LogStream.FixedBuffer.FormatIntegers` | myTinymuduo/base/LogStream.cpp:65-89 | any run of numbers stays inside the buffer |
| `LogStream.KeptIff` | myTinymuduo/base/LogStream.h:36-43 | a text is kept, whole and at the end, exactly when it leaves a byte free, and a number exactly when 48 bytes are free |
| `LogStream.RunOfNumbers` | myTinymuduo/base/LogStream.cpp:36-44 | a run of numbers only adds and never beyond the buffer, and with 48 bytes for each the buffer holds all their texts in order |

## Left out

- System calls: epoll, eventfd, timerfd, readv, write, sockets and clocks appear only as results that the environment chooses.
- `Socket`, `InetAddress`, `Acceptor`, `Thread`, `CurrentThread`, `EventLoopThread`: thin wrappers over the system.
- The thread pool's round robin, `LogFile`, `FileUtil` and the printing of time stamps: they would add only easy members. The io loop of a connection is any loop.
- Both `Logger` front ends, the macros, floating-point formatting and the length of the "null" literal in `LogStream.h`.
- `HttpServer` and the demo programs: a new parser for each message and `Buffer::to_string`, which is the whole array, are not claimed anything about.
- Destruction of servers, loops and timer queues; memory order below mutexes and atomics.
- Message callbacks and the input buffer of a connection; the user's callbacks act only through the steps that the models list.
- The receive time of a request, `getHeader`, `swap` of buffers and the capacity query.
- The overloads of `wait_and_pop` and `try_pop` that store into a reference.
- A timer's callback object; a callback is the sequence of queue operations it performs.
- SomeThreadCanStep: is safety of the locks only, not that `wait_and_pop` returns; notify is issued without the head mutex.
- ThreadFunc: what the front buffers hold when the loop ends is not written, because the code does not drain them.
- FixedBuffer.Append: a text that the cast length lets through without room would be copied past the end, so callers must not pass one.
- ConnectionLives: connection numbers stay within a 32-bit int, and the address text within 21 characters.
- ConnectionLives: the stream of a connection is in Connection and its life in Server, which keeps the mask of the channel but not the bytes; whether a send leaves bytes and a write drains them is a free choice there.
- ConnectionLives: a queued send is bound to a bare pointer to the connection; that the object still exists when it runs is taken for granted.
- AlarmCoversFirstTimer: assumes a positive clock and intervals that are not negative, as the code's test for a positive expiration does.
- HeaderBlockReadsBack: keys have no colon, keys and values no CRLF, and a kept-alive body fewer than ten to the thirteenth bytes.
