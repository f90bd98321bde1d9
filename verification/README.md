# Schedulers, dispatchers and containers of the Dezyne runtimes

This project models the parts of the Dezyne runtime libraries that decide in which order things
happen, and the containers below them, and proves what the components on top rely on. It holds
nine models. Each is a set of modules whose names start alike; `Wrappers` has what several share.

**The C++ pump** (`Pump*`, `Sequences`). One thread of control is passed among coroutines that run
events, block on a port, wait collaterally behind a blocked coroutine, are released, finish, and are
discarded. `PumpModel` has the state, the steps and what runs are; `Pump` has the object, whose
methods edit the lists in place and are tied to the steps; `PumpProofs` has the invariant and
`PumpTheorems` what follows for every run. `PumpHistory`, `PumpPlaces` and `PumpPrograms` read off
the steps of a run what its last state must be: which events ran in which order, which ports are
unblocked, what is skipped, who is in which list, and where each coroutine is. Two things are
assumed of the environment, and each is shown to be exactly what is needed: when `block` relays
waiters at most one matches (`BatonAfterBlock`), and a port with a pending switch is not released
again (`ReleaseKeepsPending`). `PumpDoubleRelay` has runs to states in which the first, and the
second, is at stake.

**Event dispatch** (`Dispatch*`). An event is the finite tree of what its body posts. The mutually
recursive C dispatcher and the iterative C# one are functions on values and methods of two classes.
Each of them runs every tree to completion exactly when no flushing component may post to two
components (`DispatchExactly`), and then they do the same. `DispatchTwoTargets` has a tree with two
targets for which the C# form leaves an event in a queue and the C form does not. `DispatchOrder` has
the order in which bodies run.

**Contexts on threads** (`Context*`) and **the thread pool** (`Pool*`). Interleavings of steps, one
for each time a thread takes or gives up a mutex, with spurious wake-ups. One thing is assumed of the
code on top of the contexts: a context whose thread is on the way out of its work is not yielded to or
called. `ContextLeaving` has a run to a state in which that is at stake. `ContextArrivals` has what each
request has achieved when nothing is left to do.

**The hash map, its checksum and the locator** (`Crc`, `HashTable`, `HashMap`, `HashLoss`,
`Locator`). Open addressing in a window of eight slots with a rehash that re-enters itself through
`put`, and whose index wraps at 65536 slots. `HashTable` has the calls as functions on tables and on
what the allocator is going to answer, and the lemmas about them; `HashMap` has the object.

**The bounded queue** (`Queue`), **the state hash** (`StateHash`) and **the timers** (`Timers`).

## Where the code and its texts differ

- `runtime/c/map.c:438-443` is described as the length of the map. The counter goes up on every
  `put`, also when a key is overwritten, and the length is the counter cut to eight bits. A locator
  whose counter is a positive multiple of 256 is therefore cloned to an empty one (`Locator.Locator.Clone`,
  `Locator.CloneLosesService`).
- `runtime/c/dzn/map.h` says that `put` answers that memory ran out; it does not say that services
  can be lost then. A `put` that runs out of memory in the middle of a rehash leaves a part of the
  old contents, and `dzn_locator_set` does not tell its caller. Whatever the allocator is going to
  answer, no put that returns loses a key if and only if the table is `Safe` for the key before the call: the key has
  room, or the elements fit a table of twice the size in the order of their slots, and that table is
  safe in its turn (`HashTable.LosesExactly`). Afterwards the counter tells: keys are lost exactly when
  it is below the old number of keys (`HashTable.PutMeans`). Ten short keys for which it happens are in
  `HashLoss`.
- The loops over the slots of `runtime/c/map.c` count with 16 bits. In a table of 65536 slots or more
  they meet the first 65536 slots over and over, and put their keys again. So doubling such a table
  never succeeds: it ends when a later allocation is denied, or never if no element is met
  (`HashTable.RehashMeans`).
- `dzn_queue_push` of `runtime/c/queue.c` with linked lists has no bound, but the size has eight bits,
  so a list of 256 items calls itself empty (`Queue.LinkedQueue.Empty`, `Queue.EmptyWhenFull`).
- A context that is released at the end of the work of another one may run before that other one is
  blocked, and a release then throws (`ContextLeaving.LeavingIsReachable`). The pump calls its last
  coroutine again without waiting when its loop at `runtime/c++/pump.cc:283-293` goes round once more.
- A task of the thread pool can be in the queue of idle tasks while its worker holds the task and
  waits for the pool, between `assign` and the `pop` after it (`PoolWindow.WindowIsReachable`). It is
  harmless: the caller then needs nothing but the pool (`PoolTheorems.QueuedWorkerWaits`).

## Model

| member | source | states |
|---|---|---|
| `PumpTheorems.OneRunnable` | runtime/c++/pump.cc:102-116 | in every state of every run exactly one coroutine of the list is runnable, and control is with it, so the assertions of `find_self` hold |
| `PumpTheorems.EventsConserved` | runtime/c++/pump.cc:235-252 | in every state of every run a posted event is queued, in progress on exactly one unfinished coroutine, or completed once, and in only one of the three |
| `PumpHistory.EventsRunInOrder` | runtime/c++/pump.cc:247-252 | in every run the events that begin, then those still queued, are the posted ones in the order of posting |
| `PumpHistory.CompletedInOrder` | runtime/c++/pump.cc:226-233 | the completed events are those that ended, in that order |
| `PumpProofs.StepKeeps` | runtime/c++/pump.cc:235-564 | every step of the pump keeps the invariant: disjoint lists, one baton, fields that agree with where coroutines are suspended, sound pending switches, waiters accounted for, events conserved |
| `PumpProofs.RunKeeps` | runtime/c++/pump.cc:326-357 | the invariant holds in all states reached from it |
| `PumpProofs.ContextSwitchKeeps` | runtime/c++/pump.cc:548-563 | handing over to a released coroutine moves the baton and keeps the invariant |
| `PumpProofs.CollateralReleaseKeeps` | runtime/c++/pump.cc:433-441 | handing over to a released waiter moves the baton and keeps the invariant |
| `PumpProofs.DropUnblockedKeeps` | runtime/c++/pump.cc:445-451 | dropping the unblocked ports when no waiter waits on them keeps every waiter accounted for |
| `PumpProofs.CollateralBlockKeeps` | runtime/c++/pump.cc:384-412 | waiting collaterally and giving control to a new coroutine keeps the invariant |
| `PumpProofs.RelayKeeps` | runtime/c++/pump.cc:471-492 | with one relayed waiter, giving it control from a block keeps the invariant |
| `PumpProofs.RetargetKeeps` | runtime/c++/pump.cc:474-487 | a waiter on an unblocked port that is moved to the port of a block stays accounted for |
| `PumpProofs.BlockYieldKeeps` | runtime/c++/pump.cc:467-492 | a block that yields keeps the invariant |
| `PumpProofs.FallThroughKeeps` | runtime/c++/pump.cc:462-466 | a block on a port that was released before keeps control and the invariant |
| `PumpProofs.BlockResumeKeeps` | runtime/c++/pump.cc:501-503 | discarding finished coroutines discards no event, no blocked coroutine and not the one in control |
| `PumpProofs.TakeConserves` | runtime/c++/pump.cc:247-252 | taking an event off the queue puts it in progress and nowhere else |
| `PumpProofs.EndConserves` | runtime/c++/pump.cc:226-233 | an event that ends leaves its coroutine and is completed once |
| `PumpTheorems.ReleasesAreServedInOrder` | runtime/c++/pump.cc:359-369 | in every run the blocked coroutines that releases find are resumed once each, in the order of the releases, except those still pending at the end |
| `PumpTheorems.ReleaseKeepsPending` | runtime/c++/pump.cc:531-564 | the pending switches stay distinct and sound if and only if the released port has none yet |
| `PumpTheorems.BlockedUntilSwitched` | runtime/c++/pump.cc:548-563 | a blocked coroutine stays as it is in every step but the switch that names it, which makes it the runnable one |
| `PumpTheorems.SkipSurvives` | runtime/c++/runtime.cc:134-150 | a release stays recorded through any run without a skip reset, a use, or a release of another port by that component |
| `PumpTheorems.ReleasedBlockFallsThrough` | runtime/c++/pump.cc:462-466 | after a release and any such run the next block of that component on that port does not yield and changes no coroutine |
| `PumpTheorems.BatonAfterBlock` | runtime/c++/pump.cc:467-492 | a block that yields leaves one runnable coroutine, the one that gets control, if and only if at most one waiter is relayed |
| `PumpDoubleRelay.TwoRelaysAreReachable` | runtime/c++/pump.cc:506-530 | a run that meets all other assumptions reaches a block that relays two waiters and breaks the baton |
| `PumpDoubleRelay.SecondReleaseIsReachable` | runtime/c++/pump.cc:539-548 | a run that meets all assumptions reaches a state in which releasing the port again would store a second switch for one coroutine |
| `PumpTheorems.OldestWaiterFirst` | runtime/c++/pump.cc:430-441 | of the waiters on unblocked ports the one that came first gets control |
| `PumpTheorems.OldestRelayAtBack` | runtime/c++/pump.cc:506-530 | the relayed waiters are appended newest first, the oldest at the back, and the others keep their order |
| `PumpTheorems.WaitersNotForgotten` | runtime/c++/pump.cc:414-452 | a step leaves a waiter, moves it to the port of a blocked coroutine or makes it the runnable one; an unblocked port is dropped only when no waiter waits on any |
| `PumpHistory.UnblockedExactly` | runtime/c++/pump.cc:445-451 | in every run the unblocked ports are those of the coroutines that switches resumed since the last look for waiters that resumed none |
| `PumpHistory.WaitersResumedForReleases` | runtime/c++/pump.cc:414-452 | a waiter gets control only when a coroutine that blocked on its port was resumed since then |
| `PumpHistory.FallsThroughExactly` | runtime/c++/pump.cc:462-466 | in every run a block falls through if and only if its component released that port and since then no block of it was resumed or skipped and its skip was not reset |
| `PumpHistory.OwnerExactly` | runtime/c++/pump.cc:394-402 | in every run a coroutine that waits collaterally takes the port of the coroutine that handles the component, or else of the last to enter a block of it, unless one was resumed since then, and throws exactly if that one is not blocked |
| `PumpPlaces.ListsInOrderOfArrival` | runtime/c++/pump.cc:125-134 | in every run both lists are in the order of arrival, and the finished coroutines are those that handed over for good since the last block that was resumed |
| `PumpPlaces.BlockEffects` | runtime/c++/pump.cc:467-492 | a block that yields puts its coroutine on its port and gives control to the waiter for its component, or to a new coroutine after moving the first waiter on an unblocked port to its own port; all others stay as they are |
| `PumpPlaces.ReleaseFindsOldest` | runtime/c++/pump.cc:118-123 | of several coroutines blocked on a port a release finds the one that came first |
| `PumpPrograms.CoroutinesKeepTheirPlace` | runtime/c++/pump.cc:326-357 | in every run each coroutine is at the point of its program, in the work and in the blocks to which its own steps have led it, whatever others did while it was suspended |
| `PumpPrograms.EventsWaitForReleases` | runtime/c++/pump.cc:336-342 | in every run an event is taken off the queue only when no switch to a released coroutine is pending |
| `PumpScan.ScanStep` | runtime/c++/pump.cc:512-527 | one round of the loop splices out the next waiter of the reversed list if it matches, and otherwise keeps it |
| `Pump.Pump.constructor` | runtime/c++/pump.cc:141-150 | a new pump, with the first coroutine that its main loop makes, is in the initial state of all runs and meets the invariant |
| `Pump.Pump.FindSelf` | runtime/c++/pump.cc:102-116 | the count of runnable coroutines is one, and the search finds the one in control |
| `Pump.Pump.FindBlocked` | runtime/c++/pump.cc:118-123 | the search finds the first coroutine blocked on the port, if any |
| `Pump.Pump.ContextSwitch` | runtime/c++/pump.cc:359-369 | the object makes the step and keeps the invariant |
| `Pump.Pump.YieldToBlocked` | runtime/c++/pump.cc:548-563 | the stored closure runs without failing its assertion and hands over as the step does |
| `Pump.Pump.TakeQueued` | runtime/c++/pump.cc:247-252 | the event at the front is executed, and it is in progress on the coroutine in control |
| `Pump.Pump.Post` | runtime/c++/pump.cc:566-573 | an event enters at the back of the queue |
| `Pump.Pump.CollateralBlock` | runtime/c++/pump.cc:384-412 | it throws exactly when no blocked owner of the component is found, and otherwise makes the step |
| `Pump.Pump.CollateralRelease` | runtime/c++/pump.cc:414-452 | the object makes the step and keeps the invariant |
| `Pump.Pump.BlockEnter` | runtime/c++/pump.cc:455-460 | the first stretch of `block` makes the step and keeps the invariant |
| `Pump.Pump.BlockCommit` | runtime/c++/pump.cc:462-492 | the middle stretch of `block`, with the relay loop and the re-targeting, makes the step and keeps the invariant |
| `Pump.Pump.CollateralReleaseSkipBlock` | runtime/c++/pump.cc:506-530 | reversing, splicing out and reversing back equals the list specification, and the answer is true exactly when something moved |
| `Pump.Pump.RemoveFinished` | runtime/c++/pump.cc:125-134 | exactly the finished coroutines leave the list, and the others keep their order |
| `Pump.Pump.BlockResume` | runtime/c++/pump.cc:501-503 | the last stretch of `block` makes the step and keeps the invariant |
| `Pump.Pump.Release` | runtime/c++/pump.cc:531-564 | the object makes the step and keeps the invariant |
| `DispatchC.Handle` | runtime/c/runtime.c:136-142 | handling any tree terminates, leaves less to do than before and the tree together, and gives every component its handling flag back |
| `DispatchC.Flush` | runtime/c/runtime.c:64-98 | flushing terminates, never leaves more to do, and gives every component its handling flag back |
| `DispatchC.Drain` | runtime/c/runtime.c:75-86 | the inner loop leaves the queue of its component empty |
| `DispatchCs.Flush` | runtime/cs/dzn/runtime.cs:137-157 | the iterative flush terminates, never leaves more to do, and gives every component its handling flag back |
| `DispatchProofs.HandleSettles` | runtime/c/runtime.c:64-142 | with one flush target a handled event leaves no new pending component, no idle component that owes a flush, and the queue of its component empty |
| `DispatchProofs.HandleFrame` | runtime/c/runtime.c:100-134 | a call leaves the flush owed by a component further down the stack alone |
| `DispatchTheorems.RunsToCompletion` | runtime/c/runtime.c:64-142 | from rest the outermost call ends at rest, with all queues empty, and both runtimes end in the same state with the same log of bodies |
| `DispatchTheorems.HandleAgrees` | runtime/cs/dzn/runtime.cs:163-178 | in every settled state the two runtimes handle every fitting event alike |
| `DispatchTheorems.FlushAgrees` | runtime/cs/dzn/runtime.cs:137-157 | in every settled state the two runtimes flush alike |
| `DispatchTheorems.HandleInOrder` | runtime/c/runtime.c:72-86 | for every tree, also with several targets, events run from a queue in the order they were queued |
| `DispatchTheorems.QueueOrder` | runtime/c/runtime.c:64-134 | once the outermost call has returned, what ran from each queue is what was ever queued, in order |
| `DispatchOnce.EveryEventRunsOnce` | runtime/c/runtime.c:64-142 | the outermost call runs each event of the tree once, on the component it was posted to, and nothing else |
| `DispatchOrder.BodySplits` | runtime/c/runtime.c:100-142 | a body makes its first posts before the others |
| `DispatchOrder.CallsRunInOrder` | runtime/c/runtime.c:113-114 | from a quiet system a tree in which nobody posts to a component that is handling, and flushing components post only as external, runs in the order of calls and changes nothing else |
| `DispatchOrder.FlushRunsQueue` | runtime/c/runtime.c:72-86 | a flush runs what waits for a component in order, each event with its posts before the next |
| `DispatchOrder.PostsRunAfterBody` | runtime/c/runtime.c:115-134 | what the body of a flushing component posts to its target runs after that body, in the order of posting |
| `DispatchExactly.CompletesExactly` | runtime/c/runtime.c:64-134 | for every system, each runtime runs every tree that may be posted to completion if and only if no flushing component may post to two components |
| `DispatchExactly.ForgetsFirst` | runtime/c/runtime.c:88-93 | from rest, a flushing component that posts to one component and then to another, or to itself, leaves the first event queued in both runtimes |
| `DispatchTwoTargets.TwoTargetsDiffer` | runtime/cs/dzn/runtime.cs:147-155 | for one tree with two flush targets the iterative runtime leaves an event queued that the recursive one runs |
| `DispatchRuntimes.RecursiveRuntime.StartEvent` | runtime/c/runtime.c:161-172 | a body starts only on an idle component, so the assertion is never reached |
| `DispatchRuntimes.RecursiveRuntime.HandleEvent` | runtime/c/runtime.c:136-142 | the object ends in the state of the function on values |
| `DispatchRuntimes.RecursiveRuntime.Enqueue` | runtime/c/runtime.c:100-134 | the object ends in the state of the function on values |
| `DispatchRuntimes.RecursiveRuntime.Flush` | runtime/c/runtime.c:64-98 | the nested loops end in the state of the function on values |
| `DispatchRuntimes.IterativeRuntime.Handle` | runtime/cs/dzn/runtime.cs:185-190 | the object ends in the state of the function on values and does not throw |
| `DispatchRuntimes.IterativeRuntime.Enqueue` | runtime/cs/dzn/runtime.cs:163-178 | the object ends in the state of the function on values |
| `DispatchRuntimes.IterativeRuntime.Flush` | runtime/cs/dzn/runtime.cs:137-157 | the loop and the recursion end in the state of the function on values |
| `ContextProofs.StepKeeps` | runtime/c++/dzn/context.hh:75-190 | every step of every thread, from creation to the end of its work, keeps the invariant: who owns which mutex, one baton, and where all other threads can be |
| `ContextProofs.HeldAtRest` | runtime/c++/dzn/context.hh:163-182 | a context whose mutex the thread with the baton holds is blocked and its thread waits, or it has not started, or its thread is on the way out of its work |
| `ContextProofs.BlockingStep` | runtime/c++/dzn/context.hh:163-168 | a thread that blocks wakes the creator of its context if that waits, and nobody else |
| `ContextProofs.InReleaseStep` | runtime/c++/dzn/context.hh:155-161 | a yield, or work that ends, finds its target blocked, wakes it, and hands the baton over |
| `ContextTheorems.OneRuns` | runtime/c++/dzn/context.hh:141-161 | in every interleaving at most one thread runs user code |
| `ContextTheorems.ReleaseFindsBlocked` | runtime/c++/dzn/context.hh:173-182 | in every interleaving `do_release` finds its context blocked, so it never throws |
| `ContextTheorems.FinishFindsBlocked` | runtime/c++/dzn/context.hh:183-190 | in every interleaving a finish finds the thread of its context waiting, also right after that thread yielded, or on the way out of its work |
| `ContextTheorems.QuietExactly` | runtime/c++/dzn/context.hh:106-168 | no deadlock and no lost wake-up: nothing is left to do if and only if the thread with the baton runs user code and all others sleep blocked or have ended |
| `ContextTheorems.RunRanks` | runtime/c++/dzn/context.hh:86-109 | between two requests every run is finite: each step takes one off a rank, a wait that ends without a reason adds two |
| `ContextArrivals.YieldArrives` | runtime/c++/dzn/context.hh:155-161 | however the steps after a yield interleave, in the end the target runs and the thread that yielded sleeps, blocked |
| `ContextArrivals.CallArrives` | runtime/c++/dzn/context.hh:141-154 | however the steps after a call interleave, in the end the target runs and the caller sleeps, blocked |
| `ContextArrivals.ExitArrives` | runtime/c++/dzn/context.hh:92-99 | however the steps after the end of some work interleave, in the end the context that it released runs and its own thread sleeps, blocked |
| `ContextArrivals.FinishEnds` | runtime/c++/dzn/context.hh:183-190 | a finish makes its context, and no other, final; it returns only when the thread of that context has ended, and once nothing is left to do it has returned |
| `ContextArrivals.CreateArrives` | runtime/c++/dzn/context.hh:76-109 | the constructor returns only when the new context is blocked, and once nothing is left to do it has returned and the new thread sleeps |
| `ContextLeaving.LeavingIsReachable` | runtime/c++/dzn/context.hh:93-98 | a run reaches a state in which user code runs and another context, whose work is over, is not blocked yet; calling that one throws |
| `PoolTheorems.StepKeeps` | runtime/c++/thread-pool.cc:53-137 | every step of every thread keeps the invariant on locks, queue, futures and pieces of work |
| `PoolTheorems.AssignFindsIdle` | runtime/c++/thread-pool.cc:107-115 | in every interleaving the assertion in `assign` holds, and a promise is replaced only if its own work has set it |
| `PoolTheorems.FuturesMatch` | runtime/c++/thread-pool.cc:107-133 | a future belongs to one piece of work, is ready once and only after that work is done, and is not ready if and only if one task still has that work |
| `PoolTheorems.WorkAccounted` | runtime/c++/thread-pool.cc:53-133 | every piece of work is with its caller, with one task, or done and answered |
| `PoolTheorems.QueuedWorkerWaits` | runtime/c++/thread-pool.cc:61-66 | a worker that waits for the pool with its task locked is in the idle queue exactly while the caller that gave it work is about to take it off, and that caller can go on |
| `PoolWindow.WindowIsReachable` | runtime/c++/thread-pool.cc:61-66 | that state is reached by a run of one client |
| `PoolTheorems.QuietExactly` | runtime/c++/thread-pool.cc:53-137 | no deadlock: nothing is left to do if and only if all callers are out of `async` and all workers run work or sleep without any |
| `PoolRank.RunsAreBounded` | runtime/c++/thread-pool.cc:53-137 | in every run the threads make at most nine steps on their own for each call of `async`, five for each end of work and two for each wait that ends without a reason |
| `PoolRank.WorkTaken` | runtime/c++/thread-pool.cc:53-137 | when nothing is left to do, every piece of work that was brought runs on a task or is done with its future ready |
| `PoolCount.IdleOrBusy` | runtime/c++/thread-pool.cc:53-80 | every task is idle, once in the queue, or busy, and idle and busy tasks add up to all tasks, but for the one task between `assign` and `pop` |
| `PoolCount.TasksAreHighest` | runtime/c++/thread-pool.cc:56-60 | after every run the number of tasks is the highest number busy at once |
| `PoolHistory.ReusedInOrder` | runtime/c++/thread-pool.cc:61-66 | in every run tasks are given new work in the order in which they came back to the pool |
| `PoolHistory.AnsweredIsIdle` | runtime/c++/thread-pool.cc:128-133 | when the future of the last work of a task is ready, the task is back in the pool |
| `PoolHistory.DestroyedAllIdle` | runtime/c++/thread-pool.cc:46-52 | with nobody in `async`, the assertion of the destructor that all tasks are in the queue holds if and only if every future is ready or about to be made so by a task that is back already |
| `PoolProofs.ChosenAtRest` | runtime/c++/thread-pool.cc:107-115 | when `assign` has locked its task, the worker has not started or sleeps, without work |
| `Crc.TableEntry` | runtime/c/map.c:98-152 | each of the 256 entries is eight shift and xor steps of its index |
| `Crc.ShiftsFeed` | runtime/c/map.c:83-91 | adding a byte and shifting eight times takes in its bits one by one |
| `Crc.ByteStep` | runtime/c/map.c:163-164 | one round of the byte loop takes in the eight bits of a byte, the lowest first |
| `Crc.Crc32` | runtime/c/map.c:157-166 | for strings shorter than 65536 bytes the loop computes the bit-serial remainder for the generator of section 8.1.1.6.2 of ITU-T V.42, with a zero preset and no complement |
| `HashTable.PutPlaced` | runtime/c/map.c:196-232 | writing a key at the slot that probing finds keeps every key at the first slot of its window that it could have |
| `HashTable.PlacedDistinct` | runtime/c/map.c:196-232 | a key is in at most one slot |
| `HashTable.InWindow` | runtime/c/map.c:319-349 | a key that is in the map is in the window of eight slots in which it is looked for |
| `HashTable.EntriesUpdate` | runtime/c/map.c:304-311 | writing that slot puts the key into the finite map |
| `HashMap.Map.constructor` | runtime/c/map.c:46-53 | a new map stands for the empty finite map |
| `HashMap.Map.HashInt` | runtime/c/map.c:171-189 | the home slot is the mixed checksum modulo the table size |
| `HashTable.PlaceIs` | runtime/c/map.c:195-232 | probing answers the first slot of the window without another key, or that all eight slots hold other keys |
| `HashTable.PutMeans` | runtime/c/map.c:287-313 | through any depth of rehashing and for any answers of the allocator, a put that returns OK updates the finite map at one key, and the counter goes up by one or restarts at the number of keys; one that runs out of memory adds nothing, and, unless it doubled a table whose loop wraps, keeps all keys if and only if the counter is not below their old number |
| `HashTable.RehashMeans` | runtime/c/map.c:237-282 | a rehash that is denied its table changes nothing; one that returns OK keeps the finite map in a larger table; one that runs out of memory in its loop has lost a key, or its index wraps, and then it never succeeds and adds nothing |
| `HashTable.PutAsks` | runtime/c/map.c:287-313 | a put asks for memory only if its key has no room; every answer that it uses but the last was a grant, each grant doubles the table, and it runs out of memory only when it is denied, when no answer is left, or at the largest table |
| `HashTable.RehashAsks` | runtime/c/map.c:237-282 | so does a rehash, however deep it re-enters itself |
| `HashTable.LoadAsks` | runtime/c/map.c:258-272 | so does the loop of a rehash, so a key without room in the new table is never given up while memory is at hand |
| `HashTable.LoadMeans` | runtime/c/map.c:258-272 | the loop of a rehash, re-entered or not, keeps the finite map or loses a key |
| `HashTable.LosesExactly` | runtime/c/map.c:237-313 | for every table and key, no answers of the allocator make a put that returns lose a key if and only if the table is safe for the key, which can be computed before the call; tables whose loop wraps included |
| `HashLoss.Homes` | runtime/c/map.c:171-189 | the home slots of ten short keys, from their checksums |
| `HashLoss.TenthLoses` | runtime/c/map.c:258-272 | after nine puts of such keys, the tenth put runs out of memory and loses the fourth key |
| `HashLoss.SetLosesService` | runtime/c/locator.c:50-63 | a service that the locator answers is NULL after another one is set |
| `HashMap.Map.Hash` | runtime/c/map.c:195-232 | the probing loop ends with the answer of the function on tables |
| `HashMap.Map.Rehash` | runtime/c/map.c:237-282 | the object ends in the table, and with the answer, of the function on tables, for tables of any size; a loop that would never end answers so |
| `HashMap.Map.Reload` | runtime/c/map.c:260-273 | the loop with its 16-bit index, once or over and over, does what the function on tables does |
| `HashMap.Map.Put` | runtime/c/map.c:287-313 | the object ends in the table, and with the answer, of the function on tables, and so as `HashTable.PutMeans` states |
| `HashTable.ReloadMerges` | runtime/c/map.c:356-387 | a loop that puts all elements of a table into another map and succeeds merges the two; one that fails, into an empty map and without wrapping, leaves some element out |
| `HashMap.Map.Get` | runtime/c/map.c:318-349 | the value of the finite map, or MISSING and NULL |
| `HashMap.Map.CopyInto` | runtime/c/map.c:356-387 | iterating with the copy function ends as the function on tables says, and does nothing if the counter is a multiple of 256; if it succeeds it merges the finite map into another, and if it runs out of memory a copy into an empty map is incomplete |
| `Locator.Run` | runtime/c/map.c:195-349 | until memory runs out every run of puts and gets is answered as by a finite map |
| `Locator.Locator.Get` | runtime/c/locator.c:50-56 | the service, or NULL |
| `Locator.Locator.Set` | runtime/c/locator.c:58-63 | the service is stored, or memory ran out; then all services are left if the map was safe for the key, and, up to 65536 slots, if and only if the counter is not below their old number; nothing outside its own map changes |
| `Locator.Locator.Clone` | runtime/c/locator.c:66-77 | the clone has only services of the original, and, when the index does not wrap, all of them if and only if the copy succeeded or the counter is zero; it shares nothing with the original |
| `Locator.SetBoth` | runtime/c/locator.c:58-77 | any run of sets on two locators that share nothing changes each by its own sets only |
| `Locator.CloneLosesService` | runtime/c/map.c:438-443 | with memory for one rehash, after 383 sets of one service the clone is empty |
| `Queue.Ring.Push` | runtime/c/queue.c:60-82 | appends at the end, also around the end of the array |
| `Queue.Ring.Pop` | runtime/c/queue.c:84-107 | takes the first item; the cell it answers still holds that item |
| `Queue.Ring.Run` | runtime/c/queue.c:34-117 | every run of calls within the size of the ring is answered as by a bounded queue |
| `Queue.LinkedQueue.Push` | runtime/c/queue.c:60-82 | appends at the end, also when the tail is stale |
| `Queue.LinkedQueue.Pop` | runtime/c/queue.c:84-107 | takes the first item |
| `Queue.LinkedQueue.Empty` | runtime/c/queue.c:48-58 | true exactly when the length is a multiple of 256 |
| `Queue.LinkedQueue.Run` | runtime/c/queue.c:34-117 | every run of calls within 255 items is answered as by a bounded queue |
| `Queue.Same` | runtime/c/queue.c:34-117 | both representations give the same answers to every run that keeps the size within DZN_QUEUE_SIZE |
| `Queue.EmptyWhenFull` | runtime/c/queue.c:48-58 | a list of 256 items calls itself empty |
| `Queue.PoppedInOrder` | runtime/c/dzn/queue.h:38-58 | in every run of the bounded queue what is popped, then what is left, is what was there, then what was pushed, in order |
| `StateHash.Hash` | runtime/c++/dzn/runtime.hh:277-303 | for all inputs the two loops compute the base-79 polynomial of the decimal state followed by the label, modulo 2 to the 32 |
| `StateHash.PolynomialInjective` | runtime/c++/dzn/runtime.hh:280-283 | without bounds the polynomial tells all alphanumeric texts apart |
| `StateHash.PolynomialFits` | runtime/c++/dzn/runtime.hh:280-283 | for up to four alphanumeric characters nothing wraps |
| `StateHash.FiveDistinct` | runtime/c++/dzn/runtime.hh:277-303 | for up to five alphanumeric characters equal hashes mean equal texts, although sums wrap |
| `StateHash.TellsTextsApartExactly` | runtime/c++/dzn/runtime.hh:277-303 | it determines the characters of the state followed by those of the label if and only if there are at most five |
| `StateHash.SplitsOnce` | runtime/c++/dzn/runtime.hh:284-299 | the characters determine the state and the label when the label does not begin with a digit |
| `StateHash.TwelveTwice` | runtime/c++/dzn/runtime.hh:284-299 | state 1 with label "2" and state 12 without a label have one hash |
| `StateHash.TellsApartExactly` | runtime/c++/dzn/runtime.hh:277-303 | the hash determines the state and the label, for alphanumeric labels of up to n characters together with the state that do not begin with a digit if and only if n is at most five, for all alphanumeric labels if and only if n is at most one |
| `StateHash.SixCollide` | runtime/c++/dzn/runtime.hh:277-303 | two states with labels of six characters together, of which neither label begins with a digit, and one hash |
| `Timers.FiredInOrder` | runtime/c++/pump.cc:261-267 | in every history timers fire in the order of their deadlines, in and across passes, and none fires early, whatever handlers set and cancel |
| `Timers.FiresOnlyIfSet` | runtime/c++/pump.cc:611-618 | a timer that was cancelled or fired does not fire again unless it is set again |
| `Timers.PendingUnique` | runtime/c++/pump.cc:600-609 | the pending timers have distinct identifiers |
| `Timers.TimerQueue.Handle` | runtime/c++/pump.cc:600-609 | inserts a timer at its place, or fails exactly when the identifier is in use |
| `Timers.TimerQueue.Remove` | runtime/c++/pump.cc:611-618 | exactly the timer with the identifier leaves |
| `Timers.TimerQueue.Pass` | runtime/c++/pump.cc:261-267 | with any handlers, of which only finitely many set timers that expire with the pass, the loop ends; the history goes on with each firing followed by exactly what its handler did, at the times that follow from what handlers take; it stays lawful, only timers that had expired when the pass began fire, and none of them is left |
| `Timers.TimerQueue.StandStill` | runtime/c++/pump.cc:261-267 | while the clock stands still, a handler that sets its timer for at once brings the loop back to where it was |
| `Timers.InsertSorted` | runtime/c++/dzn/pump.hh:72-73 | the map stays sorted by deadline and identifier |

## Left out

- The pump's main loop, `exit`, `stop`, and what happens when the main loop calls back into a
  coroutine after `exit`; forced unwinding through user code. Only running states are modelled.
- The body of `runtime::flush` inside `block`: between `BlockEnter` and `BlockCommit` any steps of the
  coroutine in control may come. The predicates of deferred work and the expiry of timers are free
  choices of the environment in the pump model; the order of timers has a model of its own.
- The C, C# and JavaScript pumps and the Boost and Pth coroutines, which are variants of the C++ pump
  on other libraries.
- `ContextModel` is a step system on values: the memory order of the mutexes is not modelled, and
  unwinding a finished context is the single step of its thread from `Woken` to `Done`. A `release`
  from outside is modelled as the last thing that the work of a context does, which is how the pump
  uses it; `rel` is never set in the repository.
- The destructors of the pool and its tasks, but for the assertion that all tasks are idle; exceptions
  from work.
- A call of a component event that is not posted but made directly (`dzn_runtime_start` and
  `dzn_runtime_finish` around a direct call), and blocking while dispatching.
- `dzn_map_remove`: the locator never removes, and a removal can leave a second copy of a key.
- HashTable.LosesExactly: tables of 2 to the 31 slots are never doubled, because the slot that probing
  answers is a signed word; a loop that never ends is the answer `ENDLESS`, of a method that returns.
- HashMap.Map.CopyInto: the function argument of `dzn_map_iterate` is fixed to `dzn_map_copy`.
- Timers.TimerQueue.Pass: no bound is claimed when handlers set timers of 0 ms for ever while the clock
  stands still (`Timers.TimerQueue.StandStill`).
- The memory that rehash frees, and the `illegal` handler of a locator, which a clone does not copy.
- The two closure representations and `memcpy` of arguments in `runtime/c/queue.c`; an item is a
  number, and the caller of the ring copies the cell at once.
- Tracing, labels, `port_update`, state strings and all templates.
- Real time: the clock is a counter that does not go back.
