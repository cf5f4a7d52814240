# Verified model of the async-berkeley poll multiplexer

async-berkeley runs asynchronous socket operations on top of `poll`. An
operation is created (possibly attempting its system call at once), connected to
a receiver (which registers poll interest), started (which queues it on its
descriptor), and completed by some thread's `wait_for`: snapshot the interest
list under a mutex, `poll` without it, clear interest and move released tasks to
a ready queue under it, then run the completions without it. Completions may
create, connect, start and wait again.

The project models that scheduler twice and proves what holds of it over every
run:

- **as objects**, in the form the source has: the intrusive circular queue as
  linked heap nodes, any number of them together and drained while completions
  run (`TaskQueue`, `TaskBank`, `TaskRunner`), dispatched as the transition
  system says (`LinkedDispatch`), the sorted interest vector with its binary
  search (`InterestList`), and the multiplexer with its table, list and mutex
  (`Multiplexer`), each method proved against a function on values;
- **as a transition system** (`Protocol`), whose steps are the atomic regions of
  the source: one critical section, one read or write of a handle's error, one
  creation, one completion. Steps of any number of threads and waiters
  interleave freely, and what `poll`, `SO_ERROR` and the system calls return is
  arbitrary. The steps use the same functions on values
  (`Demultiplexing.Register`, `Enqueue`, `Dispatched`, `MadeReady`,
  `StoredErrors`) that the methods of the objects are proved against.

About runs of the transition system: `Conservation` (the inductive invariant;
every started operation is in exactly one place and is signalled exactly once),
`Wakeup` (exactly when a waiting operation lacks interest), `LoopExit` (a
blocking wait that returns 0 leaves nothing pending), `BlockingWait` (exactly
when a blocking wait returns 0, under any interleaving and on one thread),
`WholeWait` (what one wait polls, handles, executes and returns), `Order` (what
a drain executes, and first in, first out), `Life` (what an operation waits for,
what its receiver is told, and what error a handle carries), `Effects` (at most
one successful system call per operation, and whether its receiver learns of
it), `Fairness` (how often the eager attempt is skipped, and how long a chain of
inline completions gets), `Errors` (errors stored on handles, and exactly when a
null demultiplexer or an empty functor is used) and `Lifetimes` (what the socket
pointer of a descriptor points to, and exactly when it is used null or
dangling).

Four parts stand beside it: `MessageBuffer` (advancing scatter/gather buffers),
`Timeout` (the timeout of `poll` across interruptions), `SmallFunctor` (linear
ownership of type-erased storage) and `SocketHandles` with `SwapErrors`
(exclusive ownership of descriptors, and the fate of stored errors, under
concurrent swaps).

`dafny verify dfyconfig.toml` checks the project.

## Hypotheses of the protocol

- An operation is started at most once and outlives its place in a queue. It
  shares its handle until it has completed or its connect has thrown; a handle
  that no unfinished operation holds may be destroyed at any time
  (`Protocol.Step.Release`). One live handle owns a descriptor, so nothing
  waiting on a descriptor holds another handle (`Protocol.SameHandle`, asked of
  a start).
- The descriptor of a handle does not change while operations use it: no handle
  in use is swapped or assigned to.
- `poll` with a negative timeout reports at least one entry when it succeeds on
  a non-empty list; no other demand is made of `poll`. A `poll` that fails for
  another reason than an interruption throws (`PollThrow`).
- Dispatching does not throw: `getsockopt(SO_ERROR)` fails only with EBADF or
  ENOTSOCK.
- The other conjuncts of `Protocol.Enabled` only make a step well defined;
  `Conservation.GuardsAreFree` proves that they hold in every reachable state.
- Reaching undefined behaviour (a null demultiplexer, a null or dangling socket
  pointer, an empty functor) is a fault after which nothing happens. Faults are
  not assumed away: `Errors` and `Lifetimes` state exactly when each occurs, and
  `LoopExit` that the two null pointers do not occur on one thread. The dangling
  pointer and the empty functor do occur there.

## Where the code differs from what is expected of it

- Interest is registered by connect and the task queued by start, under two
  acquisitions of the mutex. A dispatch in between can remove the interest, and
  then the operation waits uncovered: `Wakeup.LostWakeup` is such a run, in
  which a blocking wait returns 0 while the operation is pending.
  `Wakeup.InterestExact` says exactly when interest is registered.
- Interest may outlive its queue: a hang-up reported alone releases readers and
  clears nothing (`Poll.SelectsWithoutClears`).
- `start` goes through a null demultiplexer pointer exactly when connect read a
  failing error that was overwritten before start (`Errors.NullDemuxExactly`),
  dispatch through a null socket pointer exactly when a failure is reported
  before anything was queued (`Lifetimes.NullSocketExactly`), and an empty
  functor is invoked exactly when the error it stands for was overwritten
  (`Errors.EmptyInvokedExactly`); each has a run that gets there.
- That left-over interest keeps the loop of a thread going after everything has
  completed: `BlockingWait.StaleInterestRun`. `BlockingWait.LoopExitExactly` says
  exactly when a blocking wait returns 0.
- The socket pointer of a descriptor is not cleared when its handle goes. On one
  thread, a reader released by a hang-up leaves its interest behind, and once
  its handle is destroyed the next report writes through the pointer:
  `Lifetimes.DanglingSocketRun`; `Lifetimes.DanglingSocketExactly` says exactly
  when.
- A successful eager call can be lost: an error that another operation stores
  before the completion is delivered in its place (`Effects.LostEffectRun`).
- The fairness counter is shared by all operations, so it does not bound a chain
  of inline completions: when each link also creates one other eager operation,
  those can absorb every skip (`Fairness.EndlessChain`).
  `Fairness.ChainExactly` says exactly when no link skips.
- `move_back` of a queue onto itself drops its tasks (`TaskQueue.Queue.MoveBack`).
- `message_buffer::empty` sums in a `size_t` and wraps (`MessageBuffer.EmptyExactly`).
- Elapsed milliseconds are narrowed to `int` (`Timeout.ExactThroughout`), so an
  interruption can lengthen the wait (`Timeout.Lengthened`) or overflow
  (`Timeout.Overflows`); `Timeout.LengthensExactly` says exactly when.
- A swap of handles holds both locks, but errors are stored without them: an
  error stored on the right handle between the two accesses of a swap is lost
  (`SwapErrors.LostErrorRun`); `SwapErrors.ErrorSwapExactly` says exactly when the
  swap of the errors has the outcome of one exchange.
- Move assignment of a handle is documented to leave its argument invalid; it
  swaps (`SocketHandles.SocketHandle.MoveAssign`).

## Model

| member | source | states |
|---|---|---|
| `LoopExit.LoopExitComplete` | include/io/execution/impl/poll_multiplexer_impl.hpp:447-467 | In every run of one thread that starts what it connects at once: when a blocking wait, not nested in a completion, returns 0, every queue is empty and every operation ever started has signalled its receiver exactly once (the purpose of the loop at examples/tcp_echo.cpp:176) |
| `LoopExit.ZeroMeansNoInterest` | include/io/execution/impl/poll_multiplexer_impl.hpp:450-466 | In such a run, a blocking wait that returns 0 found no interest in any descriptor and direction |
| `BlockingWait.ZeroExactly` | include/io/execution/impl/poll_multiplexer_impl.hpp:447-467 | Over every interleaving, a blocking wait returns 0 if and only if no descriptor had interest in any direction when it took its snapshot |
| `BlockingWait.MissedWasHit` | include/io/execution/impl/poll_multiplexer_impl.hpp:90-204 | Over every interleaving, an operation that waited when such a wait began had its interest removed between its connect and its queueing, and nothing registered it since |
| `BlockingWait.InterestLeft` | include/io/execution/impl/poll_multiplexer_impl.hpp:389-436 | On one thread, with nothing between connect and queueing: there is interest in a direction if and only if operations wait for it, or, for readers, every release since the last registration was a hang-up alone and there was one |
| `BlockingWait.LoopExitExactly` | include/io/execution/impl/poll_multiplexer_impl.hpp:447-467 | On one thread a blocking wait returns 0 if and only if, when it began, every queue was empty and no hang-up had left interest of readers behind |
| `BlockingWait.StaleInterestRun` | include/io/execution/impl/poll_multiplexer_impl.hpp:389-434 | A run on one thread after which every operation is done and interest is left, so that the loop goes on |
| `LoopExit.NoNullDemux` | include/io/execution/impl/poll_multiplexer_impl.hpp:94-107 | In such a run, start never queues through a null demultiplexer pointer |
| `LoopExit.NoNullSocket` | include/io/execution/impl/poll_multiplexer_impl.hpp:386-387 | In such a run, dispatch never goes through a null socket pointer, whatever the kernel reports (through a dangling one it can: `Lifetimes.DanglingSocketRun`) |
| `Wakeup.UncoveredExactly` | include/io/execution/impl/poll_multiplexer_impl.hpp:90-204 | Over every interleaving, stale snapshots included: a waiting operation is not covered by the interest list if and only if a dispatch removed its interest between its connect and its queueing and no connect of any operation registered it since |
| `Wakeup.NoLostWakeup` | include/io/execution/impl/poll_multiplexer_impl.hpp:90-204 | So an operation whose window from connect to start saw no dispatch clear its direction is covered by the interest list for as long as it waits |
| `Wakeup.InterestExact` | include/io/execution/impl/poll_multiplexer_impl.hpp:121-436 | Over every interleaving, an interest bit is set if and only if some connect registered it and no later dispatch removed it |
| `Wakeup.WaitingKeepsInterest` | include/io/execution/impl/poll_multiplexer_impl.hpp:386-434 | No step removes the interest of an operation and leaves it waiting |
| `Wakeup.LostWakeup` | include/io/execution/impl/poll_multiplexer_impl.hpp:98-187 | Without the window hypothesis: a run after which an operation waits with no interest and a blocking wait reports 0 events |
| `Wakeup.LaterRun` | include/io/execution/impl/poll_multiplexer_impl.hpp:65-204 | Over every run an operation only moves forward through its life and keeps its handle, and once its sender exists its trigger and function |
| `Conservation.ExactlyOnce` | include/io/execution/impl/poll_multiplexer_impl.hpp:65-108 | At every moment of every run a started operation is in exactly one place (starting, one wait queue, one ready queue, executing, completed), no queue holds it twice, and its receiver has been signalled once if it is completed and otherwise not at all; an operation never started is nowhere |
| `Conservation.InvStep` | include/io/execution/impl/poll_multiplexer_impl.hpp:65-467 | Every step keeps the invariant: list and snapshots sorted and valid indices, queues hold exactly the queued operations under their own descriptor and direction, ready queues exactly the ready ones, signals exactly the done ones, socket pointers the handles of the waiting operations |
| `Conservation.Reachable` | include/io/execution/impl/poll_multiplexer_impl.hpp:65-467 | Every state of every run satisfies the invariant |
| `Conservation.GuardsAreFree` | include/io/execution/impl/poll_multiplexer_impl.hpp:193-460 | In every reachable state the table indices used by start and dispatch are in range, outstanding reports included, and what a drain pops exists |
| `Conservation.StructuredStep` | include/io/execution/impl/poll_multiplexer_impl.hpp:189-460 | Every step keeps the interest list, every outstanding snapshot and every report strictly sorted with descriptors that index the table, a connect on descriptor -1 included |
| `Conservation.DemuxGrows` | include/io/execution/impl/poll_multiplexer_impl.hpp:190-191 | No step shrinks the table |
| `Conservation.CompleteSignals` | include/io/execution/impl/poll_multiplexer_impl.hpp:65-79 | A completion that does not fault finishes its own operation only and signals its own receiver once, with the failing error read from the handle, else the captured value, else the value or the errno of the call |
| `WholeWait.WaitHandles` | include/io/execution/impl/poll_multiplexer_impl.hpp:447-467 | One wait from its snapshot to its return, under any interleaving: it polls exactly the entries with interest at the snapshot, handles exactly those the kernel answered for, ascending and with the kernel's flags, returns their number, and executes what waited on them when the dispatch began, in that order |
| `WholeWait.WaitExecutes` | include/io/execution/impl/poll_multiplexer_impl.hpp:370-464 | An operation is executed by the wait if and only if it waited, when the dispatch began, on a descriptor and for a direction that the kernel answered for; it completes before the return |
| `WholeWait.ReadyInOrder` | include/io/execution/impl/poll_multiplexer_impl.hpp:386-393 | The order of what is executed: event by event, the writers if the flags hold output, error or invalid, then the readers if they hold input, hang-up, error or invalid |
| `Order.DrainExact` | include/io/execution/impl/poll_multiplexer_impl.hpp:456-464 | From the dispatch to the return: exactly the tasks waiting on the handled descriptors, ascending, writers before readers, each completed before the return |
| `Order.Fifo` | include/io/execution/multiplexer.hpp:74-103 | With one waiter: the operations started on a descriptor and direction are, in order, those executed, those ready, those waiting |
| `Order.FifoPrefix` | include/io/execution/impl/poll_multiplexer_impl.hpp:101-105 | With one waiter the execution order per descriptor and direction is a prefix of the start order |
| `Effects.AtMostOneEffect` | include/io/socket/detail/async_operations.hpp:280-316 | Over the whole life of an operation, eager attempt included, at most one system call succeeds on its behalf; a receiver that gets a value gets the value of exactly one |
| `Effects.EffectDelivered` | include/io/execution/impl/poll_multiplexer_impl.hpp:65-79 | An operation that completes after a call succeeded on its behalf delivers that value if and only if the error it reads from its handle at that moment is not failing; otherwise that error |
| `Effects.LostEffectRun` | include/io/socket/detail/async_operations.hpp:284-297 | A run on one thread in which received bytes are lost to the error of another operation |
| `Life.Asked` | include/io/socket/detail/async_operations.hpp:120-188 | In every state of every run: a transfer waits for its own direction if and only if its call is still to be made and is eager otherwise; a connect waits for writability with its result fixed; a caller's own function has the caller's trigger |
| `Life.WaitsWhereAsked` | include/io/execution/impl/poll_multiplexer_impl.hpp:98-195 | A waiting operation is in the queue of its descriptor and of the direction its kind waits for, and in no other; its connect added interest in exactly that descriptor and direction |
| `Life.CreationOutcome` | include/io/socket/detail/async_operations.hpp:120-148 | A creation attempts its call if and only if it is an eager transfer whose number among the eager creations is no multiple of 256; a success captures the value, a failure stores its errno on the handle, and without an attempt nothing is captured |
| `Life.WouldBlock` | include/io/socket/detail/async_operations.hpp:293-316 | After a failed attempt whose error reads back as none or would-block, the call is still to be made and the operation waits for its own direction, in every later state |
| `Life.WouldBlockWaits` | include/io/socket/detail/async_operations.hpp:293-316 | With nothing stored on its handle up to the start, its connect registers that interest and its start is to queue it, on its own descriptor |
| `Life.ConnectReads` | include/io/execution/impl/poll_multiplexer_impl.hpp:183-185 | Connect registers if and only if the error it reads is none or would-block and the operation has a direction to wait for |
| `Life.StartReads` | include/io/execution/impl/poll_multiplexer_impl.hpp:94-96 | Start queues under the same condition on the error it reads, and completes at once otherwise |
| `Life.ReceiverTold` | include/io/execution/impl/poll_multiplexer_impl.hpp:65-79 | Over every run, for every kind: a completion that does not fault tells the receiver the error of the handle if it is failing, else the value captured at the creation, else the value of the call or its errno; what it calls, and that it stores nothing |
| `Life.OperationGoesOn` | include/io/execution/impl/poll_multiplexer_impl.hpp:65-204 | In every reachable state, whatever system calls return, an operation that does not wait can take its next step, and a ready one is in a drain |
| `Life.WaitGoesOn` | include/io/execution/impl/poll_multiplexer_impl.hpp:447-467 | A wait can begin at any time, takes every answer that `poll` may give and all socket errors, and its drain goes on until its ready queue is empty and the running completion has returned |
| `Life.ErrorExactly` | include/io/socket/impl/socket_handle_impl.hpp:135-143 | Over every run the error a handle carries is the one stored on it last, and none if nothing was: the errno of a failed attempt or connect, the error read for a failure dispatched to it, or what anyone stores |
| `Fairness.CounterCounts` | include/io/socket/detail/async_operations.hpp:78-91 | The fairness counter is the number of eager creations modulo 256 |
| `Fairness.FairnessExact` | include/io/socket/detail/async_operations.hpp:122-122 | Any stretch of a run with 256 eager creations has exactly one that skips the attempt |
| `Fairness.AttemptsBound` | include/io/socket/detail/async_operations.hpp:282-282 | A stretch in which every eager creation makes its attempt has at most 255 of them |
| `Fairness.ChainExactly` | include/io/socket/detail/async_operations.hpp:78-91 | No link of a chain, each created after the completion of the one before it, skips its attempt if and only if the number of no link among all eager creations of the run is a multiple of 256 |
| `Fairness.ChainBound` | include/io/socket/detail/async_operations.hpp:282-282 | When nothing but the links is created eagerly along the chain, at most 255 links in a row make their attempt |
| `Fairness.EndlessChain` | include/io/socket/detail/async_operations.hpp:280-292 | For every n, a run on one thread with a chain of n operations that all complete inline with their value: each completion creates one other eager operation, and those absorb the skips |
| `Errors.ErrorCoherence` | include/io/execution/impl/poll_multiplexer_impl.hpp:94-185 | When nothing is stored on its handle between the two reads, start queues an operation if and only if connect registered it, and then through the demultiplexer of its own descriptor |
| `Errors.NullDemuxExactly` | include/io/execution/impl/poll_multiplexer_impl.hpp:101-185 | In any run a queueing uses a null demultiplexer pointer if and only if the error its connect read was failing |
| `Errors.NullDemuxRun` | include/io/execution/impl/poll_multiplexer_impl.hpp:94-107 | A run that gets there |
| `Errors.EmptyFromClassify` | include/io/socket/detail/async_operations.hpp:293-297 | A failed attempt leaves an empty functor if and only if the error reads back as failing |
| `Errors.EmptyOnlyFromClassify` | include/io/socket/detail/async_operations.hpp:293-297 | An operation has an empty functor only from such a reading |
| `Errors.EmptyNeverInvoked` | include/io/socket/detail/async_operations.hpp:134-138 | When nothing is stored on the handle after that, the empty functor is never invoked |
| `Errors.EmptyInvokedExactly` | include/io/execution/impl/poll_multiplexer_impl.hpp:70-74 | In any run a completion invokes an empty functor if and only if the operation was classified with a failing error and the error of its handle is not failing any more |
| `Errors.EmptyFunctorRun` | include/io/socket/detail/async_operations.hpp:358-362 | A run on one thread that gets there: a would-block of a second operation overwrites the error |
| `Errors.DialOutcome` | include/io/socket/detail/async_operations.hpp:59-188 | A connect waits for writability and completes with its own immediate error, unless that means in progress or done; otherwise with the error its handle carries, or 0; as long as nothing else is stored on the handle |
| `Errors.Broadcast` | include/io/execution/impl/poll_multiplexer_impl.hpp:351-393 | Every operation waiting on a descriptor that reports a failure completes with the error read for that descriptor and without running its function, unless another error is stored before it executes |
| `Errors.BroadcastDispatch` | include/io/execution/impl/poll_multiplexer_impl.hpp:386-393 | At such a dispatch the socket pointer is the handle of the waiting operation, the operation becomes ready, and its handle carries the error |
| `Errors.ErrorStaysFrom` | include/io/socket/impl/socket_handle_impl.hpp:135-143 | A handle's error reads the same until something is stored on it |
| `Lifetimes.SocketExactly` | include/io/execution/impl/poll_multiplexer_impl.hpp:107-107 | In any run the socket pointer of a descriptor is the handle of the operation queued last on it, and null if and only if there is none |
| `Lifetimes.WaitingIsSafe` | include/io/execution/poll_multiplexer.hpp:106-110 | While an operation waits on a descriptor, the socket pointer is its handle and the handle exists |
| `Lifetimes.NullSocketExactly` | include/io/execution/impl/poll_multiplexer_impl.hpp:386-387 | In any run a dispatch uses a null socket pointer if and only if it handles a failure for a descriptor on which nothing was queued |
| `Lifetimes.NullSocketRun` | include/io/execution/impl/poll_multiplexer_impl.hpp:386-387 | A run that gets there |
| `Lifetimes.DanglingSocketExactly` | include/io/execution/impl/poll_multiplexer_impl.hpp:386-387 | In any run a dispatch that meets no null pointer uses a pointer to a destroyed handle if and only if it handles a failure for a descriptor whose last queued handle was released |
| `Lifetimes.DanglingSocketRun` | include/io/execution/impl/poll_multiplexer_impl.hpp:386-434 | A run on one thread that gets there: hang-up, completion, destruction of the handle, report of an invalid descriptor |
| `Demultiplexing.RegisterEffect` | include/io/execution/impl/poll_multiplexer_impl.hpp:187-196 | Registering sets exactly one interest bit, touches no queue, and keeps the list a sorted list of indices |
| `Demultiplexing.EnqueueEffect` | include/io/execution/impl/poll_multiplexer_impl.hpp:98-107 | Queueing appends to exactly one queue and sets that descriptor's socket pointer |
| `Demultiplexing.DispatchReady` | include/io/execution/impl/poll_multiplexer_impl.hpp:456-462 | On an ascending report the ready queue is, per event, the writers then the readers selected by it, as they waited when the dispatch began |
| `Demultiplexing.DispatchQueues` | include/io/execution/impl/poll_multiplexer_impl.hpp:370-394 | A selected queue becomes empty, every other queue and every socket pointer is unchanged |
| `Demultiplexing.DispatchInterest` | include/io/execution/impl/poll_multiplexer_impl.hpp:423-461 | An interest bit survives a dispatch if and only if no handled event clears it |
| `Demultiplexing.DispatchConserves` | include/io/execution/impl/poll_multiplexer_impl.hpp:389-393 | What a dispatch moved of a queue and what it left make up the queue, in order |
| `Demultiplexing.DispatchDistinct` | include/io/execution/impl/poll_multiplexer_impl.hpp:456-462 | No task is moved twice by one dispatch |
| `Poll.ClearsImpliesSelects` | include/io/execution/impl/poll_multiplexer_impl.hpp:389-434 | An event that removes interest in a direction releases that direction's queue |
| `Poll.SelectsWithoutClears` | include/io/execution/impl/poll_multiplexer_impl.hpp:389-434 | The converse fails in exactly one case: readers, on a hang-up reported without input or failure |
| `Multiplexer.PollMultiplexer.Connect` | include/io/execution/impl/poll_multiplexer_impl.hpp:187-196 | The locked region registers interest and grows the table; on descriptor -1 it throws and changes nothing; the lock is free afterwards |
| `Multiplexer.PollMultiplexer.Start` | include/io/execution/impl/poll_multiplexer_impl.hpp:98-107 | The locked region queues the task on its descriptor and direction |
| `Multiplexer.PollMultiplexer.Resize` | include/io/execution/impl/poll_multiplexer_impl.hpp:190-191 | Existing demultiplexers are kept, new ones are empty |
| `Multiplexer.PollMultiplexer.KeepReported` | include/io/execution/impl/poll_multiplexer_impl.hpp:318-321 | Keeps the entries with events, in order |
| `Multiplexer.PollMultiplexer.PrepareHandles` | include/io/execution/impl/poll_multiplexer_impl.hpp:370-394 | Stores the error on a failure, moves the selected writers, then the selected readers, and leaves all else |
| `Multiplexer.PollMultiplexer.DispatchAll` | include/io/execution/impl/poll_multiplexer_impl.hpp:456-462 | The locked loop computes the dispatch of the report: table, list, ready queue and stored errors |
| `Multiplexer.PollMultiplexer.RunQueue` | include/io/execution/impl/poll_multiplexer_impl.hpp:235-243 | Terminates and executes exactly the given tasks in order, without the lock, while completions connect and start what they like; every queue and interest bit afterwards is what it was and what they named |
| `Multiplexer.PollMultiplexer.TakeSnapshot` | include/io/execution/impl/poll_multiplexer_impl.hpp:450-450 | The snapshot is the list of entries with interest |
| `Multiplexer.PollMultiplexer.WaitFor` | include/io/execution/impl/poll_multiplexer_impl.hpp:447-467 | Executes, in order, exactly the tasks waiting on the reported descriptors at its beginning, returns the number of entries the kernel answered for, stores the errors, and leaves every queue and interest bit as the report left it, extended by what the completions started |
| `Multiplexer.SubmittedExtends` | include/io/execution/impl/poll_multiplexer_impl.hpp:98-195 | Connecting and starting one operation appends it to its own queue, covers it with interest, and changes no other queue |
| `Multiplexer.DrainExtends` | include/io/execution/impl/poll_multiplexer_impl.hpp:235-243 | What the completions of a drain connect and start: each queue gets the operations named for it behind what it held, in order, and interest is what it was and what is named |
| `Multiplexer.WaitExtends` | include/io/execution/impl/poll_multiplexer_impl.hpp:447-467 | The same after a dispatch: a queue is empty if the report selected it and otherwise as it was, followed by those operations; interest is what survived the report and what is named |
| `InterestList.List.LowerBound` | include/io/execution/impl/poll_multiplexer_impl.hpp:124-125 | Binary search: everything before is smaller, everything from there on is not |
| `InterestList.List.UpdateOrInsert` | include/io/execution/impl/poll_multiplexer_impl.hpp:121-138 | Map update with the union of masks; the list stays sorted; the returned position is the entry of the descriptor |
| `InterestList.List.ClearEvent` | include/io/execution/impl/poll_multiplexer_impl.hpp:423-436 | The in-place edit is the clearing of the event; the list stays sorted |
| `InterestList.List.CopyActive` | include/io/execution/impl/poll_multiplexer_impl.hpp:402-412 | Exactly the entries with a non-empty mask, strictly sorted |
| `InterestList.UpsertView` | include/io/execution/impl/poll_multiplexer_impl.hpp:127-135 | Insertion or merge is map update on the map from descriptor to mask |
| `InterestList.UpsertSorted` | include/io/execution/impl/poll_multiplexer_impl.hpp:124-135 | The list stays strictly sorted, without duplicates |
| `InterestList.ClearedView` | include/io/execution/impl/poll_multiplexer_impl.hpp:426-435 | Clearing is map update on a listed descriptor and nothing on any other; no entry moves |
| `InterestList.ClearedFlag` | include/io/execution/impl/poll_multiplexer_impl.hpp:428-435 | One direction's bit survives if and only if the event is for another descriptor or clears neither it nor all |
| `InterestList.ActiveEmpty` | include/io/execution/impl/poll_multiplexer_impl.hpp:402-412 | The snapshot is empty if and only if no descriptor has interest |
| `TaskQueue.Queue.constructor` | include/io/execution/multiplexer.hpp:106-106 | A new queue is a valid circle of its sentinel alone |
| `TaskQueue.Queue.IsEmpty` | include/io/execution/multiplexer.hpp:68-71 | True if and only if the queue holds no task |
| `TaskQueue.Queue.Push` | include/io/execution/multiplexer.hpp:74-78 | Append |
| `TaskQueue.Queue.Pop` | include/io/execution/multiplexer.hpp:98-103 | Removes and returns the front task; on an empty queue returns the sentinel and changes nothing |
| `TaskQueue.Queue.MoveBack` | include/io/execution/multiplexer.hpp:85-95 | Concatenation that leaves the other queue empty and usable and no task's completion changed; on the queue itself, all tasks are dropped |
| `TaskQueue.Queue.Splice` | include/io/execution/multiplexer.hpp:89-93 | The pointer writes join two circles into one and close the other |
| `TaskQueue.QueuesApart` | include/io/execution/multiplexer.hpp:42-107 | Valid distinct queues share no node |
| `TaskBank.Bank.PushAt` | include/io/execution/multiplexer.hpp:74-78 | Among any number of queues, an append changes its own queue and no other |
| `TaskBank.Bank.PopAt` | include/io/execution/multiplexer.hpp:98-103 | A removal changes its own queue and no other; the task it returns is free to be queued again |
| `TaskBank.Bank.MoveOnto` | include/io/execution/multiplexer.hpp:85-95 | A move changes the two queues and no third |
| `TaskBank.Bank.Play` | include/io/execution/multiplexer.hpp:42-107 | Over any program of pushes, pops and moves on any number of queues, onto itself included: every queue is the sequence that the value semantics gives it, and what is popped is what it says |
| `TaskBank.AppliedListed` | include/io/execution/multiplexer.hpp:42-107 | Which tasks an operation takes out of the queues and which it puts in: none appears, and none is lost but by a removal and by a move of a queue onto itself |
| `TaskBank.AppliedContents` | include/io/execution/multiplexer.hpp:74-103 | What every queue holds after a push, a pop or a move, and what a pop takes |
| `LinkedDispatch.DispatchPlays` | include/io/execution/impl/poll_multiplexer_impl.hpp:386-393 | The moves that dispatching a report makes, writers then readers per event, played on the lists of a table, give the dispatched table and the ready queue of the value model |
| `LinkedDispatch.DispatchLinked` | include/io/execution/impl/poll_multiplexer_impl.hpp:456-462 | So do they on linked nodes: every theorem about the dispatched queues holds of them |
| `TaskRunner.Runner.Execute` | include/io/execution/multiplexer.hpp:64-64 | Runs the completion of the task, which may destroy the task and queue new ones, in any number, on any of the other queues |
| `TaskRunner.Runner.RunQueue` | include/io/execution/impl/poll_multiplexer_impl.hpp:235-243 | On linked nodes that each completion overwrites: terminates and executes exactly the tasks present at the start, in order, while completions start operations on any number of other queues; each of these has, behind what it held, what the completions started on it, in order |
| `MessageBuffer.Buffers.Advance` | include/io/socket/impl/socket_message_impl.hpp:135-154 | The in-place removal with a counting, trimming predicate computes the advance |
| `MessageBuffer.Buffers.PushBack` | include/io/socket/impl/socket_message_impl.hpp:61-66 | The bytes of the message are those before, followed by those of the buffer |
| `MessageBuffer.TrimmedSpan` | include/io/socket/detail/platforms/posix/socket_impl.hpp:32-42 | Advancing one buffer drops that many addresses, or all |
| `MessageBuffer.AdvancedFlat` | include/io/socket/impl/socket_message_impl.hpp:135-154 | The bytes after an advance are the original bytes without the first min(len, total) |
| `MessageBuffer.AdvancedShape` | include/io/socket/impl/socket_message_impl.hpp:138-152 | Only a prefix of buffers is removed and at most the first remaining one is trimmed, to a non-empty rest |
| `MessageBuffer.AdvancedTwice` | include/io/socket/impl/socket_message_impl.hpp:135-154 | Two advances are one advance by the sum, buffer for buffer |
| `MessageBuffer.Buffers.Empty` | include/io/socket/impl/socket_message_impl.hpp:113-125 | True if and only if the total length is a multiple of 2^64 |
| `MessageBuffer.EmptyExactly` | include/io/socket/impl/socket_message_impl.hpp:113-132 | It tells whether bytes are left if and only if the total is zero or no multiple of 2^64 |
| `MessageBuffer.EmptyWraps` | include/io/socket/impl/socket_message_impl.hpp:115-124 | Two buffers for which it does not |
| `MessageBuffer.Buffers.WriteAll` | examples/tcp_echo.cpp:76-85 | For every sequence of send results the bytes sent are a prefix of the original bytes, without gap or duplicate, and the loop stops exactly when all are sent |
| `MessageBuffer.SendsBounded` | examples/tcp_echo.cpp:76-85 | When every send makes progress, the loop needs at most one send per byte |
| `Timeout.PollTimeout` | include/io/execution/impl/poll_multiplexer_impl.hpp:310-316 | The loop computes the remaining timeout, or overflows; a negative timeout is never changed |
| `Timeout.NeverCutShort` | include/io/execution/impl/poll_multiplexer_impl.hpp:310-316 | Over any interruptions at any distance, what is left is never less than the duration minus the true elapsed time |
| `Timeout.DriftBound` | include/io/execution/impl/poll_multiplexer_impl.hpp:275-316 | When no interval is forgotten, it is max(0, duration minus the truncated intervals), and k > 0 interruptions exceed max(0, duration minus true elapsed time) by less than k milliseconds |
| `Timeout.LengthensExactly` | include/io/execution/impl/poll_multiplexer_impl.hpp:279-287 | One more interruption at any distance leaves at most what was left if and only if its milliseconds, modulo 2^32, fit an `int`; otherwise it adds the complement to 2^32 and overflows if and only if the sum does not fit |
| `Timeout.Lengthened` | include/io/execution/impl/poll_multiplexer_impl.hpp:279-287 | A timeout of 1 that becomes 1001 |
| `Timeout.Overflows` | include/io/execution/impl/poll_multiplexer_impl.hpp:287-287 | A duration and an interval for which the subtraction overflows |
| `Timeout.NarrowingExactly` | include/io/execution/impl/poll_multiplexer_impl.hpp:279-287 | For one interval of any length the result is defined and right if and only if the interval fits or wraps to at least the whole duration |
| `Timeout.ExactThroughout` | include/io/execution/impl/poll_multiplexer_impl.hpp:279-316 | Over any number of interruptions of any length, the remaining timeout is defined and max(0, duration minus truncated intervals) at every point if and only if no interval both overflows an `int` and wraps to less than what is left |
| `Timeout.NarrowingForgets` | include/io/execution/impl/poll_multiplexer_impl.hpp:279-287 | An interruption after 2^32 milliseconds counts as no time |
| `SmallFunctor.Functor.constructor` | include/io/detail/small_functor.hpp:109-109 | An empty functor holds nothing |
| `SmallFunctor.Functor.FromCallable` | include/io/detail/small_functor.hpp:120-123 | Holds the callable, with one construction |
| `SmallFunctor.Functor.Copy` | include/io/detail/small_functor.hpp:126-137 | Holds a copy and leaves the other alone; a callable that cannot be copied gives an empty functor |
| `SmallFunctor.Functor.Move` | include/io/detail/small_functor.hpp:143-146 | Takes the content over; the other becomes empty; constructions and destructions balance |
| `SmallFunctor.Functor.Swap` | include/io/detail/small_functor.hpp:177-206 | Exchanges the contents of any two functors, empty or not, the same one included; every construction is matched by a destruction |
| `SmallFunctor.Functor.CopyAssign` | include/io/detail/small_functor.hpp:152-160 | Replaces the content by a copy and destroys the old content; self-assignment changes nothing |
| `SmallFunctor.Functor.MoveAssign` | include/io/detail/small_functor.hpp:167-171 | Exchanges the contents |
| `SmallFunctor.Functor.Destroy` | include/io/detail/small_functor.hpp:209-213 | Destroys exactly the content there is |
| `SmallFunctor.Pool.Play` | include/io/detail/small_functor.hpp:120-213 | Over any program of these operations on any number of functors: they behave as values, the table pointer is set if and only if the storage holds one live object of that type, and once all are gone constructions equal destructions |
| `SmallFunctor.OccupiedApply` | include/io/detail/small_functor.hpp:120-213 | How many functors hold an object before and after each operation |
| `SmallFunctor.AppliedContents` | include/io/detail/small_functor.hpp:120-213 | What every functor holds after each operation: copies, moves, exchanges, and that no other functor changes |
| `SocketHandles.SwapIsAtomic` | include/io/socket/impl/socket_handle_impl.hpp:33-104 | Whatever other threads do between the accesses of a swap, each handle ends with the descriptor that the other held when it began |
| `SwapErrors.ErrorSwapOutcome` | include/io/socket/impl/socket_handle_impl.hpp:33-104 | Under the same interleavings and stores of errors: the right handle ends with the error of the left one at the exchange, whatever was stored on it; the left handle ends with the error of the right one at the load, or with the last error stored on it after the exchange |
| `SwapErrors.ErrorSwapExactly` | include/io/socket/impl/socket_handle_impl.hpp:33-138 | That is the outcome of one exchange of both errors followed by the later stores if and only if the right error did not change between load and exchange, or a store on the left handle hides it, and what was stored on the right handle after the exchange, if anything, is what the swap writes there |
| `SwapErrors.ErrorSwapUndisturbed` | include/io/socket/impl/socket_handle_impl.hpp:33-138 | In particular when nothing is stored on the right handle between the load and the store of its error |
| `SwapErrors.ErrorGuardsAreFree` | include/io/socket/impl/socket_handle_impl.hpp:94-104 | In every run both handles of a swap exist when it accesses their errors |
| `SwapErrors.LostErrorRun` | include/io/socket/impl/socket_handle_impl.hpp:39-138 | A run in which a stored error is on neither handle after the swap |
| `SocketHandles.ClosedOnce` | include/io/socket/impl/socket_handle_impl.hpp:94-152 | Over every interleaving of swaps, creations and destructions, a destroyed handle closes a descriptor that is open and held by it alone, and every descriptor is closed as often as it was opened, but for one time if it is open |
| `SocketHandles.NoLeak` | include/io/socket/impl/socket_handle_impl.hpp:145-152 | When no handle is left, no descriptor is open |
| `SocketHandles.Reachable` | include/io/socket/impl/socket_handle_impl.hpp:94-104 | In every reachable state each open descriptor has exactly one holder: a handle or the temporary of one swap |
| `SocketHandles.SocketHandle.Swap` | include/io/socket/impl/socket_handle_impl.hpp:94-104 | Exchanges socket and error, also of a handle with itself |
| `SocketHandles.SocketHandle.Move` | include/io/socket/impl/socket_handle_impl.hpp:63-67 | Takes socket and error over; the other becomes invalid |
| `SocketHandles.SocketHandle.MoveAssign` | include/io/socket/impl/socket_handle_impl.hpp:69-74 | Exchanges; the argument becomes invalid if and only if this handle was |
| `SocketHandles.SocketHandle.Close` | include/io/socket/impl/socket_handle_impl.hpp:147-152 | Closes the descriptor, if there is one, and is invalid afterwards |

## Left out

- The multiplexer object keeps each wait queue as the sequence of its tasks; that any number of linked queues are such sequences, under every program and while completions run, is proved in `TaskQueue`, `TaskBank` and `TaskRunner`, and that dispatching them is the dispatch of those sequences in `LinkedDispatch`, so aliasing between nodes is captured there and not in `Multiplexer`.
- Multiplexer.PollMultiplexer.WaitFor: one thread, with the kernel's answers and the submissions of the completions as parameters and no failure reported before anything was started; interleavings, faults and errors read by operations are in `Protocol`.
- MessageBuffer.Buffers.WriteAll: assumes a total length below 2^64, as `empty` demands.
- Fairness.ChainExactly: a chain is links in the order of their creations, each after the completion of the one before; the depth of the call stack is not represented.
- Liveness under an arbitrary kernel, such as every write eventually completing: not a property of the code, since a hang-up alone does not release writers.
- Exceptions thrown while dispatching, and the retry loops on interruption in the synchronous operations.
- Allocators, alignment, memory ordering of atomics, and the Windows platform files.
- The sender library (scopes, adaptors), the executor, triggers and customization points: they only forward.
- Socket addresses, options, dialogs and buffer iterators: they would only add easy members.
- Whether the echo example echoes the received bytes: its reader hands the whole buffer to its writer.
