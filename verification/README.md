# Verified models of libco and of the protobuf JavaScript runtime

A Dafny project about several parts of the repository.

**The scheduler of libco** (`libco/co_routine.cpp`, `libco/co_comm.cpp`). Coroutines that poll, sleep or wait for a
condition variable are kept in intrusive linked lists: the slots of a timer wheel, the active list of the event
loop, the queues of condition variables. The project has this code three times over. `Links`, `TimerWheel`, `EventLoop`
and `CoComm` are the linked objects. `WheelModel` is the wheel as a value. `Scheduler` is a step machine, in which the
calls of coroutines interleave freely with the event loop and the condition variables; the theorems about whole runs
(`SchedulerPolls`, `SchedulerDeadlines`, `SchedulerPassOrder`, `SchedulerSignals`, `SchedulerPlain`, `CoMutex`) are about it.
`Renaming`, `LoopMatch` and `TrackedLoop` tie them together: beside the objects of an event loop a run of the machine is
kept, and every operation on the objects is shown to extend that run by exactly one step, so that what is proved of all
runs holds of the objects. `LoopPass` has whole passes of the loop; `CondExample` uses the objects as `libco/example_cond.cpp`
does, and in `MutexExample` two coroutines contend for a mutex.

**Coroutine switching** (`libco/co_routine.cpp`). `CoSwitch` is the machine: a call stack, and stack memories shared by several
coroutines, whose contents are copied out and back in as they alternate. `CoRuns` has the theorems about whole runs.
`CoObjects` has the objects, updated in place, and `TrackedThread` keeps the run of the machine that describes them.
`CopyStack` is the program of `libco/example_copystack.cpp` on these objects.

**Both together.** In `CoLoop` the two machines step together: a coroutine that polls or waits yields, and the event loop, run by
one of the coroutines, resumes it. `CoLoopStacks` and `CoLoopRuns` have the theorems about whole runs of both.

**Hooked system calls** (`libco/co_hook_sys_call.cpp`): merging the requests of a poll, writing in pieces, and the
environment variables that each coroutine has for itself (`PollMerge`, `PartialWrite`, `SysEnv`, `StringOrder`).

**Protocol Buffers**: the storage of a JavaScript message (`JspbMessage`), comparison and cloning of its values (`JsValue`,
`JsNormal`, `JsClone`), the map with its lazily synchronised array (`JspbMap`), varints (`Varint`, after the sections
"Base 128 Varints" and "Message Structure" of the Protocol Buffers Encoding specification) and ZigZag (`ZigZag`, after the
section "Signed Integers").

## Claims that hold only under a condition

- No overdue item stays in the wheel: if and only if the milliseconds since its start fit an `int`, or what is left of them
  after the narrowing to `int` is still at least the number of slots (`WheelModel.CountOk`, `WheelModel.TakeIsCompleteIff`). Runs
  of the scheduler are therefore runs with such clock readings, and with readings other than 0, because a start of 0 stands
  for a wheel not yet started (`WheelModel.RestartIsSafeIff`).
- A signal or broadcast wakes the waiters it picks by the end of the pass: if and only if the pass under way had not taken
  the waiter out of its slot before its deadline (`SchedulerSignals.PickedWakesIff`), hence always if the wait had no deadline or
  one less than a turn of the wheel away (`SchedulerSignals.FittingWaitsAreWoken`); `SchedulerLostSignal.LostSignal` is a run
  that loses a signal.
- A resumed coroutine is sure to find its shared stack as it left it: exactly when its stack memory has an occupant, or it had
  left nothing there (`CoRuns.SwitchRestoresIff`, `CoRuns.StackPreservedIff`), hence in every run that frees and resets no
  current occupant (`CoRuns.StackPreserved`); `CoRuns.FreedOccupantLosesStack` is a run that loses stack contents.
- A long varint is longer than needed by the number asked for: if and only if the value is not 0 or nothing extra is asked for;
  a 0 with extra bytes is written as one byte, although the comment at the function says otherwise (`Varint.LongVarint`).
- A map says that it has a key exactly if it does: if and only if the key is present or names no inherited property
  (`JspbMap.Map.Has`). Deleting fails exactly if an entry is called `hasOwnProperty` (`JspbMap.Map.Del`).
- An entry is deleted by `del`, and survives the synchronisation of the array after an edit: if and only if it is not called
  `__proto__`; assigning that property replaces the prototype of the dictionary (`JspbMap.Map.Del`, `JspbMap.Map.ToArray`). Such an
  entry can still be read (`JspbMap.Map.Get`).
- The member of a union that stays set is the one with the greatest field number, as the comment at `computeOneofCase` says: if
  and only if the union lists its fields in ascending order (`JspbMessage.FindsGreatestIff`), because the code keeps the last
  listed one; `JspbMessage.SmallerOneIsKept` has the failing unions of two fields.
- The comment at `initPivotAndExtensionObject_` calls the pivot an index; the code makes it the field number of that index, and
  so does the model.

## Model

| member | source | states |
|---|---|---|
| `Links.RemoveFromLink` | libco/co_routine.cpp:151-189 | on a well-formed doubly linked list, removal is removal from the sequence of nodes; the node names no list afterwards; a node in no list is left alone |
| `Links.AddTail` | libco/co_routine.cpp:191-211 | appending is appending to the sequence; a node that is in a list already is left where it is |
| `Links.PopHead` | libco/co_routine.cpp:212-236 | the sequence loses its first node, which is in no list afterwards; an empty list stays empty |
| `Links.Join` | libco/co_routine.cpp:238-266 | the two sequences are concatenated, the second list is left empty |
| `Links.DisjointLists` | libco/co_routine.cpp:151-266 | two well-formed lists share no node, because a node names the one list it is in |
| `Links.RemoveIn` | libco/co_routine.cpp:151-189 | among any number of lists, the node leaves the one list it is in and all lists stay well formed |
| `Links.AddTailIn` | libco/co_routine.cpp:191-211 | among any number of lists, only the list appended to changes |
| `Links.PopHeadIn` | libco/co_routine.cpp:212-236 | among any number of lists, only the list popped changes, and only the popped node leaves its list |
| `Links.JoinIn` | libco/co_routine.cpp:238-266 | among any number of lists, the nodes of the one move to the other and no other list changes |
| `Links.Reset` | libco/co_routine.cpp:806-809 | clearing the timeout list at the start of a pass drops nothing, since it is empty there |
| `WheelModel.ToInt32` | libco/co_routine.cpp:425 | the narrowing of the slot count to int: the same number modulo 2^32, and the number itself while it fits |
| `WheelModel.SlotFor` | libco/co_routine.cpp:399-408 | an item goes no later than its deadline, and exactly to it if and only if the deadline is inside the wheel |
| `WheelModel.AddFails` | libco/co_routine.cpp:380-398 | AddTimeout succeeds exactly when start <= now <= deadline, and otherwise inserts nothing |
| `WheelModel.AddKeepsInv` | libco/co_routine.cpp:378-412 | inserting keeps the wheel invariant: every item stands k slots after the start with due time start + k <= deadline, slots in order of insertion |
| `WheelModel.CancelKeepsInv` | libco/co_routine.cpp:151-189 | removing an item from whatever slot it is in keeps the wheel invariant and every other item |
| `WheelModel.OneSlot` | libco/co_routine.cpp:399-409 | an item is in one slot only |
| `WheelModel.GatherHolds` | libco/co_routine.cpp:431-436 | the first n slots hold exactly the items due before start + n |
| `WheelModel.GatherInOrder` | libco/co_routine.cpp:431-436 | collected items are ordered by slot time, first in first out within a slot |
| `WheelModel.ClearedStep` | libco/co_routine.cpp:431-436 | emptying slot after slot empties the first n slots and collects their items |
| `WheelModel.TakeIsExact` | libco/co_routine.cpp:413-443 | a take moves out exactly the items whose slot time has come, in chronological order; what stays keeps the wheel invariant and is not overdue |
| `WheelModel.CountOkIff` | libco/co_routine.cpp:425-429 | as many slots are visited as have come due, or all of them, if and only if the milliseconds since the start fit an int or what the narrowing leaves of them is at least the number of slots |
| `WheelModel.TakeIsCompleteIff` | libco/co_routine.cpp:425-429 | exactly for these clock readings no overdue item stays behind, whatever the wheel holds |
| `WheelModel.LeftBehind` | libco/co_routine.cpp:425-429 | for every clock reading at which the narrowed count is wrong, a wheel that loses an overdue item |
| `WheelModel.LongPauseTakesNothing` | libco/co_routine.cpp:425-436 | after a pause of 2^31 - 1 ms the count is negative and nothing is taken |
| `WheelModel.RestartIsSafeIff` | libco/co_routine.cpp:380-384 | restarting a wheel whose start is 0 keeps every wheel valid if and only if the clock still reads 0 |
| `TimerWheel.TimeoutWheel.constructor` | libco/co_routine.cpp:361-372 | a new wheel is the given number of empty lists |
| `TimerWheel.TimeoutWheel.AddTimeout` | libco/co_routine.cpp:378-412 | on linked lists: exactly the new wheel and error code of the value model, no other list touched |
| `TimerWheel.TimeoutWheel.MoveFirst` | libco/co_routine.cpp:431-436 | joining slot after slot empties the first slots and appends their items to the result list in order |
| `TimerWheel.TimeoutWheel.TakeAllTimeout` | libco/co_routine.cpp:413-443 | on linked lists: exactly the take of the value model, the items appended to the result list |
| `SchedulerRuns.StepKeepsInv` | libco/co_routine.cpp:772-869 | every step of the event loop, of polls and of condition variables keeps the invariant of the scheduler |
| `SchedulerRuns.RunKeepsInv` | libco/co_routine.cpp:772-869 | the invariant holds all along every run |
| `SchedulerInv.PutBackKeepsCore` | libco/co_routine.cpp:843-851 | an item taken before its deadline goes back to the wheel, and the AddTimeout for it never fails |
| `SchedulerPolls.WokenExactlyOnce` | libco/co_routine.cpp:772-790 | in every run each resumption is of a different item, its raise count is the number of events delivered to it, an event and a timeout never combine, and the item is in no list afterwards |
| `SchedulerPolls.NobodyIsLost` | libco/co_routine.cpp:983-1027 | in every run whoever went to sleep has been woken once, or is alive in exactly one timer list, or is a waiter in its queue |
| `SchedulerPolls.EventsAreDelivered` | libco/co_routine.cpp:772-790 | in every run a poll that got an event has been resumed when the pass ends, with all its events and not as a timeout |
| `SchedulerPolls.OnePlaceEach` | libco/co_routine.cpp:399-409 | no slot holds an item twice and no two slots hold the same item |
| `SchedulerDeadlines.PassIsExact` | libco/co_routine.cpp:825-859 | the wheel and the loop refine a plain set of deadlines: a pass at time now resumes as timeouts exactly the items with deadline <= now, each once, and every other item goes on waiting for its own deadline unless a signal released it, whatever the resumed coroutines do meanwhile |
| `SchedulerPassOrder.TimeoutsComeInOrder` | libco/co_routine.cpp:825-859 | coroutines that a pass resumes because of their deadlines alone are resumed in the order of the slots it took them from, and within a slot in the order in which they came |
| `SchedulerPlain.StepIsPlain` | libco/co_routine.cpp:378-443 | every step does to the deadlines what a plain map would: a poll or a timed wait enters exactly its own, an event or a signal cancels exactly those of the items it activates, a resumed item leaves, and taking or putting back changes nothing |
| `SchedulerPlain.RunIsPlain` | libco/co_routine.cpp:378-443 | so it is all along every run |
| `SchedulerPlain.ResumedByDeadline` | libco/co_routine.cpp:825-859 | in every run a poll or timed wait, begun at any time, has been resumed when the first pass that begins afterwards at or past its deadline ends |
| `SchedulerSignals.ResumedInWaitingOrder` | libco/co_routine.cpp:1120-1176 | in every run, waiters resumed by signals and broadcasts of a condition variable are resumed in the order in which they began to wait |
| `SchedulerSignals.BroadcastOrder` | libco/co_routine.cpp:1133-1146 | a broadcast empties the queue and puts its waiters, in order, at the end of the active list |
| `SchedulerSignals.PickedWakesIff` | libco/co_routine.cpp:838-859 | a waiter picked by a signal or a broadcast has been resumed by the end of the pass if and only if that pass had not taken it out of its slot before its deadline |
| `SchedulerSignals.SignalWakesIff` | libco/co_routine.cpp:1120-1132 | the same for the waiter at the head of the queue of a signalled condition variable |
| `SchedulerSignals.BroadcastWakesIff` | libco/co_routine.cpp:1133-1146 | the same for every waiter in the queue at a broadcast |
| `SchedulerSignals.FittingWaitsAreWoken` | libco/co_routine.cpp:1149-1176 | in every run a wait that begins without a deadline, or with one less than a turn of the wheel after its start, is resumed by the end of the pass whenever a signal or broadcast picks it |
| `SchedulerLostSignal.LostSignal` | libco/co_routine.cpp:843-851 | a concrete run in which a signal is lost: the waiter was taken early, signalled in the same pass, and put back |
| `EventLoop.Epoll.constructor` | libco/co_routine.cpp:877-889 | a new event loop: an empty wheel, empty active and timeout lists |
| `EventLoop.Epoll.Activate` | libco/co_routine.cpp:1126-1130 | the item leaves the wheel or whatever timer list it is in and is last in the active list |
| `EventLoop.Epoll.PollReady` | libco/co_routine.cpp:772-790 | the first event detaches the poll and appends it to the active list, every event raises the count by one |
| `EventLoop.Epoll.MarkTimedOut` | libco/co_routine.cpp:827-833 | exactly the items of the timeout list are marked |
| `EventLoop.Epoll.Collect` | libco/co_routine.cpp:806-836 | clear, take, mark and join on linked lists: exactly the items taken are marked and appended to the active list, the timeout list is empty again |
| `EventLoop.Epoll.DrainOne` | libco/co_routine.cpp:838-859 | the head leaves the active list; it goes back to the wheel if it was taken early, and is processed otherwise |
| `EventLoop.Epoll.StartPoll` | libco/co_routine.cpp:917-1009 | the new poll is in the wheel, or AddTimeout failed and it is not |
| `EventLoop.Epoll.CondPop` | libco/co_routine.cpp:1188-1196 | the first waiter, if there is one, leaves the queue |
| `EventLoop.Epoll.Signal` | libco/co_routine.cpp:1120-1132 | the first waiter leaves the queue and its timer item becomes the last of the active list; without waiters nothing changes |
| `EventLoop.Epoll.Broadcast` | libco/co_routine.cpp:1133-1146 | all waiters leave queue and wheel and go, in order, to the end of the active list |
| `EventLoop.Epoll.StartWait` | libco/co_routine.cpp:1149-1176 | the new waiter is last in its queue, and in the wheel if it has a deadline; a failing AddTimeout queues nobody |
| `Renaming.RenameTake` | libco/co_routine.cpp:413-443 | taking does not depend on what the items are |
| `Renaming.RenameAdd` | libco/co_routine.cpp:378-412 | inserting does not depend on what the items are |
| `Renaming.RenameCancel` | libco/co_routine.cpp:151-189 | removing depends on the items only through their identity |
| `LoopMatch.ReadyMatches` | libco/co_routine.cpp:772-790 | if a machine state describes the contents of a loop, the event step describes the contents after the event |
| `LoopMatch.TakeMatches` | libco/co_routine.cpp:825-836 | the same for the take |
| `LoopMatch.DrainMatches` | libco/co_routine.cpp:838-859 | the same for a round of the draining loop and the departure of the resumed coroutine |
| `LoopMatch.NewPollMatches` | libco/co_routine.cpp:917-1009 | the same for a new poll |
| `LoopMatch.NewWaitMatches` | libco/co_routine.cpp:1149-1176 | the same for a new wait |
| `LoopMatch.SignalMatches` | libco/co_routine.cpp:1120-1132 | the same for a signal |
| `LoopMatch.BroadcastMatches` | libco/co_routine.cpp:1133-1146 | the same for a broadcast |
| `TrackedLoop.Loop.constructor` | libco/co_routine.cpp:877-889 | a new event loop is described by the initial state of the machine |
| `TrackedLoop.Loop.Ready` | libco/co_routine.cpp:772-790 | the objects do what the machine does: an event extends the run that describes them by one step |
| `TrackedLoop.Loop.Take` | libco/co_routine.cpp:825-836 | the same for the take of a pass |
| `TrackedLoop.Loop.Drain` | libco/co_routine.cpp:838-859 | the same for a round of the draining loop, including the removal of a resumed waiter from its queue; exactly a resumed item is not known any more |
| `TrackedLoop.Loop.DrainIsPossible` | libco/co_routine.cpp:838-859 | whenever the machine can drain so can the objects: the item at the head is a poll's, or it has a node |
| `TrackedLoop.Loop.EndPass` | libco/co_routine.cpp:838-869 | the same for the end of a pass |
| `TrackedLoop.Loop.StartPoll` | libco/co_routine.cpp:917-1009 | the same for a new poll; it is known besides what was known before exactly if AddTimeout succeeds, which is when the machine has it |
| `TrackedLoop.Loop.StartWait` | libco/co_routine.cpp:1149-1176 | the same for a new wait, its node and its timer item |
| `TrackedLoop.Loop.Signal` | libco/co_routine.cpp:1120-1132 | the same for a signal |
| `TrackedLoop.Loop.Broadcast` | libco/co_routine.cpp:1133-1146 | the same for a broadcast |
| `TrackedLoop.Loop.NewCond` | libco/co_routine.cpp:1177-1180 | a new condition variable has no waiters and changes nothing else |
| `TrackedLoop.Depart` | libco/co_routine.cpp:1169-1176 | a resumed waiter takes its own node out of the queue and nobody else leaves |
| `TrackedLoop.Loop.InOnePlace` | libco/co_routine.cpp:806-858 | in every reachable state of the objects a live item is never in two timer lists, and is in one of them or, for a waiter, in its queue |
| `CondExample.Exchange` | libco/example_cond.cpp:34-66 | from the wait of the consumer and the signal of the producer to the end of the next pass: the consumer is resumed first, as signalled and not as a timeout, and everybody else the pass resumes is resumed as a timeout |
| `LoopPass.Round` | libco/co_routine.cpp:838-859 | a round of the draining loop, whatever is at the head, is one step of the machine |
| `LoopPass.FinishPass` | libco/co_routine.cpp:838-869 | the rounds end with the active list empty and the loop between passes; whoever is resumed was waiting for a turn, and is marked as timed out exactly if it was |
| `CoMutex.MutualExclusion` | libco/co_comm.cpp:10-22 | in every run in which only the owner unlocks, interleaved with anything else: at most one owner, the counter is queued waiters plus one if owned or handed over, ownership passes in order of arrival, and nobody waits for a lock that nobody has |
| `CoMutex.HandedReturns` | libco/co_comm.cpp:10-22 | in every run whoever an unlock hands the lock to has returned from CoLock when the pass ends, and nobody else has got the lock before |
| `CoMutex.MoveKeepsInv` | libco/co_comm.cpp:10-22 | every lock, unlock and foreign step keeps the invariant of the mutex |
| `CoComm.ClsCoMutex.constructor` | libco/co_comm.cpp:3-6 | a new mutex over an unused condition variable satisfies the invariant |
| `CoComm.ClsCoMutex.CoLock` | libco/co_comm.cpp:10-17 | the object does what the mutex machine does on a lock, on top of the event loop objects; a call that finds the lock taken is known to the loop as a waiter |
| `CoComm.ClsCoMutex.CoUnLock` | libco/co_comm.cpp:19-22 | the object does what the mutex machine does on an unlock |
| `CoComm.ClsCoMutex.OneOwner` | libco/co_comm.cpp:10-22 | in every reachable state of the objects: at most one owner, and the counter is the owners plus the length of the queue |
| `MutexExample.ObservedPass` | libco/co_comm.cpp:10-22 | a whole pass of the event loop keeps the mutex objects valid, its calls and its counter, and leaves nobody on the way back from CoLock |
| `MutexExample.Example` | libco/co_comm.cpp:10-22 | lock, contending lock, unlock, a pass and the second unlock, on the objects: both calls get the lock, in order, and the counter is 0 again |
| `CoSwitch.Overlay` | libco/co_routine.cpp:671-678 | copying a saved stack back changes the saved range and nothing below or above it |
| `CoSwitch.StepKeepsInv` | libco/co_routine.cpp:531-679 | every resume, yield, end, write, creation, free and reset keeps the invariant: what a switched-out coroutine left is in the memory if it is the occupant and in its save buffer otherwise |
| `CoSwitch.SwapRestores` | libco/co_routine.cpp:635-679 | the coroutine switched to finds its part of the stack as it left it, unless nobody occupied the memory |
| `CoSwitch.SwapCos` | libco/co_routine.cpp:635-662 | a switch changes only the save buffer of the old occupant and the stack mark of the coroutine switched out |
| `CoSwitch.SwapMems` | libco/co_routine.cpp:635-679 | a switch leaves every other stack memory alone |
| `CoRuns.RunKeepsInv` | libco/co_routine.cpp:531-679 | the invariant holds all along every run |
| `CoRuns.SwitchRestoresIff` | libco/co_routine.cpp:635-679 | a switch brings back what the coroutine left on the stack, for all contents the memory may hold at that moment, if and only if somebody occupies the memory or nothing was left |
| `CoRuns.StackPreservedIff` | libco/co_routine.cpp:635-679 | the same in every run, for what the coroutine left when it was last switched out |
| `CoRuns.StackPreserved` | libco/co_routine.cpp:558-679 | for every interleaving, nested or not, in which no current occupant is freed or reset, a resumed coroutine finds its stack contents as it left them |
| `CoRuns.FreedOccupantLosesStack` | libco/co_routine.cpp:531-550 | a concrete run in which freeing the current occupant makes another coroutine lose its stack contents |
| `CoRuns.CallStackIsProper` | libco/co_routine.cpp:558-606 | all along every run the call stack has at most 128 entries, all distinct, with the main coroutine at the bottom |
| `CoRuns.CallStackDiscipline` | libco/co_routine.cpp:558-606 | when activity that began with a resume has come back to the old depth, control is with the resumer again, on the old call stack |
| `CoRuns.LowerEntriesStay` | libco/co_routine.cpp:558-606 | entries below the lowest point of a stretch of a run do not change |
| `CoObjects.CoRoutine.SaveStackBuffer` | libco/co_routine.cpp:618-633 | a new buffer holds the memory from the stack mark on |
| `CoObjects.CopyBack` | libco/co_routine.cpp:671-678 | the copy loop overlays the saved bytes |
| `CoObjects.Environment.SwapOut` | libco/co_routine.cpp:635-662 | the first half of a switch does to the objects what the machine does to the state that describes them |
| `CoObjects.Environment.SwapIn` | libco/co_routine.cpp:664-678 | the same for the second half |
| `CoObjects.Environment.CoSwap` | libco/co_routine.cpp:635-679 | the same for the whole switch |
| `CoObjects.Environment.CoResume` | libco/co_routine.cpp:558-571 | the same for co_resume |
| `CoObjects.Environment.CoYieldEnv` | libco/co_routine.cpp:597-606 | the same for co_yield_env |
| `CoObjects.Environment.CoFinish` | libco/co_routine.cpp:444-457 | the same for the end of a coroutine |
| `CoObjects.CoReset` | libco/co_routine.cpp:576-595 | the same for co_reset |
| `CoObjects.CoFree` | libco/co_routine.cpp:531-550 | the same for co_free |
| `TrackedThread.CoThread.constructor` | libco/co_routine.cpp:742-760 | a new thread with its main coroutine is described by the initial state of the machine |
| `TrackedThread.CoThread.Resume` | libco/co_routine.cpp:558-571 | a resume extends the run that describes the objects by one step |
| `TrackedThread.CoThread.Yield` | libco/co_routine.cpp:597-606 | the same for a yield |
| `TrackedThread.CoThread.Finish` | libco/co_routine.cpp:444-457 | the same for the end of a coroutine |
| `TrackedThread.CoThread.Create` | libco/co_routine.cpp:460-516 | the same for a new coroutine, which joins the cast with its stack memory |
| `TrackedThread.CoThread.Free` | libco/co_routine.cpp:531-550 | the same for co_free; exactly the freed coroutine leaves the cast |
| `TrackedThread.CoThread.Reset` | libco/co_routine.cpp:576-595 | the same for co_reset |
| `TrackedThread.CoThread.StackKept` | libco/co_routine.cpp:558-679 | the stack memory object of a coroutine just switched to holds what the coroutine left in it |
| `CopyStack.Turn` | libco/example_copystack.cpp:29-42 | one turn of a coroutine: unless it runs for the first time, it finds the buffer on its stack as it left it |
| `CopyStack.Example` | libco/example_copystack.cpp:44-62 | any number of coroutines taking any number of turns on one shared stack always find their own buffers |
| `CoLoop.BeginInv` | libco/co_routine.cpp:793-803 | a thread whose running coroutine enters the event loop satisfies the invariant of both machines |
| `CoLoop.MoveKeepsInv` | libco/co_routine.cpp:766-859 | every move of a thread with its event loop keeps the invariants of both machines, a sleeping coroutine for every item, each off the call stack, alive and not ended |
| `CoLoop.NextCanBeResumed` | libco/co_routine.cpp:766-770 | the resume that a round of the draining loop makes is always possible, if the call stack has room |
| `CoLoop.LoopHasItsStack` | libco/co_routine.cpp:793-869 | in every run, whenever the coroutine of the event loop runs, the call stack is the one on which it entered the loop |
| `CoLoop.RoundIsPossible` | libco/co_routine.cpp:838-859 | in every run, if there was room for one more coroutine when the loop was entered, every round is possible, and whom it resumes runs directly on top of the loop |
| `CoLoopStacks.SleepKeepsStack` | libco/co_routine.cpp:983-1009 | in every run that frees and resets no current occupant, a coroutine resumed from a poll or a wait finds its part of the shared stack as it left it |
| `CoLoopRuns.IsSchedulerRun` | libco/co_routine.cpp:793-869 | a run of both machines, without the moves that do not concern the scheduler, is a run of the scheduler, so its theorems apply |
| `CoLoopRuns.SleeperComesBack` | libco/co_routine.cpp:983-1009 | in every such run a coroutine that begins a poll or a timed wait is switched back to before the first pass that begins afterwards at or past its deadline ends, with its part of the shared stack as it left it |
| `PollMerge.Merge` | libco/co_hook_sys_call.cpp:587-603 | the merged array lists each descriptor once, in order of first appearance, with all events asked for |
| `PollMerge.MergeShortensIff` | libco/co_hook_sys_call.cpp:604-607 | the merged array is as long as the request if and only if the descriptors are distinct, and then it is the request |
| `PollMerge.HandOut` | libco/co_hook_sys_call.cpp:609-619 | every entry gets exactly the raised events of its descriptor that it asked for |
| `PollMerge.Poll` | libco/co_hook_sys_call.cpp:580-625 | distinct descriptors are polled as they are; otherwise, after a positive result, every entry gets its share of what the merged poll raised |
| `PartialWrite.Descriptor.Write` | libco/co_hook_sys_call.cpp:369-420 | for every sequence of short, empty and failing system writes the accepted bytes are a prefix of the buffer of the length returned, an error is returned only if nothing was accepted, and the loop ends |
| `StringOrder.StrCmp` | libco/co_hook_sys_call.cpp:767-770 | strings compare as 0 exactly if they are the same |
| `StringOrder.StrCmpAntisymmetric` | libco/co_hook_sys_call.cpp:767-770 | the order of names is antisymmetric |
| `StringOrder.StrCmpTransitive` | libco/co_hook_sys_call.cpp:767-770 | the order of names is transitive, strictly so if one step is strict |
| `StringOrder.SortIsUnique` | libco/co_hook_sys_call.cpp:792 | there is only one sorted arrangement of strings, whatever routine produces it |
| `SysEnv.Dedup` | libco/co_hook_sys_call.cpp:793-807 | the in-place removal of repeated names leaves one of each run of equal neighbours |
| `SysEnv.UniqSorted` | libco/co_hook_sys_call.cpp:793-807 | a sorted list without repeated neighbours is strictly sorted |
| `SysEnv.MakeEnvList` | libco/co_hook_sys_call.cpp:775-810 | for every list of names the result is strictly sorted and holds exactly the names that are neither null nor empty |
| `SysEnv.BSearch` | libco/co_hook_sys_call.cpp:824-828 | binary search finds a name exactly if it is in the list, at its position |
| `SysEnv.Environments.SetEnvList` | libco/co_hook_sys_call.cpp:775-810 | only the first list counts |
| `SysEnv.Environments.Prepare` | libco/co_hook_sys_call.cpp:755-765 | giving a coroutine values of its own changes no value |
| `SysEnv.Environments.SetEnv` | libco/co_hook_sys_call.cpp:812-843 | a listed name changes for the current coroutine only, and without overwrite only if it has no value yet |
| `SysEnv.Environments.UnsetEnv` | libco/co_hook_sys_call.cpp:844-875 | a listed name loses its value for the current coroutine only |
| `SysEnv.Environments.GetEnv` | libco/co_hook_sys_call.cpp:876-901 | a listed name gives the value of the current coroutine |
| `JsNormal.CompareDecidesNormalEquality` | protobuf-3.20.0/js/message.js:1629-1735 | on all well-formed trees that compare without coercion, compareFields decides equality of normal forms |
| `JsNormal.TrimEqualIff` | protobuf-3.20.0/js/message.js:1690-1724 | arrays without their trailing unset elements are equal if and only if they agree at every index |
| `JsNormal.ExtensionsDecide` | protobuf-3.20.0/js/message.js:1629-1648 | compareExtensions decides equality of the set properties |
| `JsClone.CompareReflexive` | protobuf-3.20.0/js/message.js:1655-1735 | every well-formed tree compares equal to itself |
| `JsClone.CompareSymmetric` | protobuf-3.20.0/js/message.js:1655-1735 | comparison is symmetric |
| `JsClone.CompareTransitive` | protobuf-3.20.0/js/message.js:1655-1735 | comparison is transitive |
| `JsClone.CloneKeepsNormal` | protobuf-3.20.0/js/message.js:1825-1858 | a clone is well formed and has the normal form of its source |
| `JsClone.CloneComparesEqual` | protobuf-3.20.0/js/message.js:1825-1858 | the clone of every well-formed tree compares equal to its source |
| `JspbMessage.Message.constructor` | protobuf-3.20.0/js/message.js:353-397 | whatever the data and the suggested pivot, the fields are those the data array holds when read on its own, repeated fields that hold nothing become empty lists, and of each union that shares no field with another exactly the last listed member that was set stays set |
| `JspbMessage.SetAt` | protobuf-3.20.0/js/message.js:987-997 | assigning beyond the end of an array lengthens it and changes no other element |
| `JspbMessage.Message.MaybeInitEmptyExtensionObject` | protobuf-3.20.0/js/message.js:497-502 | making the extension object changes no field |
| `JspbMessage.Message.GetField` | protobuf-3.20.0/js/message.js:668-686 | the value of the field; the shared empty list is replaced by a new list and never given out, and no other field changes |
| `JspbMessage.Message.SetField` | protobuf-3.20.0/js/message.js:987-997 | as on one flat map: the field gets the value and no other field changes, on either side of the pivot |
| `JspbMessage.Message.AddToRepeatedField` | protobuf-3.20.0/js/message.js:1136-1147 | the value is inserted into the list of the field, a new list if it was the empty list shared by all messages, which stays empty; no other field and no other object changes |
| `JspbMessage.Message.GetFieldWithDefault` | protobuf-3.20.0/js/message.js:873-880 | the value of the field, or the default if it is null |
| `JspbMessage.Message.SetFieldIgnoringDefault` | protobuf-3.20.0/js/message.js:1110-1123 | read with the same default the field shows the value set, for every value that is not null; a default value is not stored |
| `JspbMessage.Message.InitUnions` | protobuf-3.20.0/js/message.js:389-396 | of each union that shares no field with another exactly the last listed member that was set stays set, of any other union at most one; fields outside the unions are unchanged |
| `JspbMessage.Message.ComputeOneofCase` | protobuf-3.20.0/js/message.js:1191-1214 | only the last listed member that is set stays set, with its value; members that are not set and fields outside the union are unchanged |
| `JspbMessage.FindsGreatestIff` | protobuf-3.20.0/js/message.js:1178-1214 | the member kept has the greatest field number of those set, whatever is set, if and only if the union lists its fields in ascending order |
| `JspbMessage.SmallerOneIsKept` | protobuf-3.20.0/js/message.js:1191-1214 | of two set fields listed in descending order the smaller one is kept |
| `JspbMessage.Message.CaseIsLast` | protobuf-3.20.0/js/message.js:1191-1214 | the unique case is what a further computation finds, so computing the case is idempotent |
| `JspbMessage.Message.SetOneofField` | protobuf-3.20.0/js/message.js:1160-1172 | after a value that is not null its field is the unique case; a null value leaves no case, an undefined one leaves the former case |
| `JspbMap.Map.constructor` | protobuf-3.20.0/js/map.js:64-82 | for every array, the entries stored are the last-wins reading of the array |
| `JspbMap.Map.LoadFromArray` | protobuf-3.20.0/js/map.js:89-97 | the same for the loading loop |
| `JspbMap.Map.Assign` | protobuf-3.20.0/js/map.js:351-364 | assigning a property of the dictionary stores the entry, `__proto__` as its prototype |
| `JspbMap.Map.ToArray` | protobuf-3.20.0/js/map.js:104-134 | after an edit the array is strictly sorted by string key and reads as all entries but one called `__proto__`, hence as all of them if and only if there is none; without an edit it is unchanged |
| `JspbMap.SortedArrayIsUnique` | protobuf-3.20.0/js/map.js:117-133 | two arrays sorted by key that read as the same map are the same array |
| `JspbMap.Map.Clear` | protobuf-3.20.0/js/map.js:236-239 | no entry is left, not even a prototype, and the array is stale |
| `JspbMap.Map.Set` | protobuf-3.20.0/js/map.js:351-364 | for every key, the entry is stored under its string key and no other changes, and the array is stale |
| `JspbMap.Map.Del` | protobuf-3.20.0/js/map.js:250-256 | the entry is gone and the result says whether there was one, if and only if it is not a stored `__proto__`; the call fails exactly if an entry is called hasOwnProperty |
| `JspbMap.Map.Get` | protobuf-3.20.0/js/map.js:391-399 | a value exactly if some entry has this key, inherited properties and `__proto__` notwithstanding, and then that of the entry, which an array that is up to date has in the last pair with the key |
| `JspbMap.Map.Has` | protobuf-3.20.0/js/map.js:407-410 | right if and only if the key is present or is not the name of an inherited property; a stored `__proto__` passes on the names of its own properties |
| `JspbMap.Map.StringKeys` | protobuf-3.20.0/js/map.js:524-533 | each own key once |
| `Varint.VEncode64` | protobuf-3.20.0/conformance/binary_json_conformance_suite.cc:105-120 | the loops write the groups of seven bits with the continuation bit on all but the last byte, padded as asked, and one zero byte for 0 |
| `Varint.DecodePadded` | protobuf-3.20.0/conformance/binary_json_conformance_suite.cc:105-120 | a varint of any value and any padding decodes to the value whatever bytes follow |
| `Varint.GroupsAreMinimal` | protobuf-3.20.0/conformance/binary_json_conformance_suite.cc:105-120 | no varint of a value is shorter than the unpadded one |
| `Varint.Uint64Fits` | protobuf-3.20.0/conformance/binary_json_conformance_suite.cc:103 | every 64-bit value fits ten bytes |
| `Varint.LongVarint` | protobuf-3.20.0/conformance/binary_json_conformance_suite.cc:128-134 | decodes to the value whatever follows, exactly the last byte lacks the high bit, and it is as many bytes too long as asked if and only if the value is not 0 or nothing extra is asked for |
| `Varint.Varint` | protobuf-3.20.0/conformance/binary_json_conformance_suite.cc:122-126 | the unpadded varint |
| `Varint.Delim` | protobuf-3.20.0/conformance/binary_json_conformance_suite.cc:140 | reading the length-delimited string gives back the string and the bytes after it |
| `Varint.Tag` | protobuf-3.20.0/conformance/binary_json_conformance_suite.cc:148-150 | the key decodes to the wire type, and to the field number if and only if that has at most 29 bits |
| `Varint.StreamDecodes` | protobuf-3.20.0/conformance/binary_json_conformance_suite.cc:105-134 | a stream of varints of any paddings decodes to its values and to nothing else |
| `ZigZag.EncodeIsCode` | protobuf-3.20.0/objectivec/GPBUtilities_PackagePrivate.h:134-150 | at every width, encoding gives 2n for n >= 0 and -2n - 1 otherwise |
| `ZigZag.DecodeIsMeaning` | protobuf-3.20.0/objectivec/GPBUtilities_PackagePrivate.h:118-132 | at every width, decoding halves even codes and maps odd ones to the negative numbers |
| `ZigZag.RoundTrip` | protobuf-3.20.0/objectivec/GPBUtilities_PackagePrivate.h:110-150 | decoding undoes encoding |
| `ZigZag.RoundTripBack` | protobuf-3.20.0/objectivec/GPBUtilities_PackagePrivate.h:110-150 | encoding undoes decoding |

## Left out

- `coctx_swap` and `coctx_make`: a switch of contexts is one atomic step, and a stack pointer is any position in the stack memory.
- Addresses: a stack memory is an array of bytes and `stack_sp` an index into it; freeing memory is modelled only by what the code forgets.
- The array behind the call stack: its used part is a sequence; runs stay below 128 entries, since the code does not check the bound.
- The kqueue branch of `libco/co_epoll.cpp`, the registration of descriptors and the translation of event masks: kernel plumbing.
- Events for items without a prepare function, and resuming, freeing or resetting a coroutine whose poll or wait is still pending: not part of the runs.
- The copying of raised events into the caller's array after a poll (`libco/co_routine.cpp` lines 1006-1014), and polls with a timeout of 0, which never sleep.
- TrackedThread.CoThread.Create: the rounding of stack sizes, and the choice among the memories of a shared stack, are the caller's.
- CondExample.Exchange: one exchange, with an empty task queue; the tasks themselves are not modelled.
- MutexExample.Example: the coroutines that the pass resumes besides the second call do nothing that concerns the loop; likewise in `CondExample.Exchange`.
- EventLoop.Epoll.StartPoll: the registration of the descriptors, and the return without a wait when the only descriptor cannot be polled (EPERM), are not modelled.
- Clock, system calls and the environment of the process: parameters, or any result the system may give.
- Machine integers: times, indices and counters are unbounded, except for the narrowing of the slot count to `int` and the 32 bits of a field key.
- Integer widths of the poll timeout: `now + timeout` is computed without wrap-around.
- Receiving, connecting and option hooks, DNS, hook tables, `co_closure.h`, `rpc/`, and the llbc tree: calls into the system or easy bookkeeping.
- PartialWrite.Descriptor.Write: the wait for the descriptor between two system writes is not modelled; the loop of the hooked send (lines 492-541) is the same.
- SysEnv.Environments.SetEnv: a name outside the list is passed on to the system, whose own environment is not modelled; likewise for unsetenv and getenv.
- Messages inside messages: wrapper objects (`wrappers_`), message-valued maps, `copyInto`, `difference`, and binary serialisation.
- JsNormal.CompareDecidesNormalEquality: values whose comparison needs coercion between kinds (such as 1 and "1") are excluded, and extension objects stand at the end of arrays.
- JspbMessage.Message.AddToRepeatedField: the field holds a list, as a repeated field does after initialisation.
- Message fields: numbers are at least 1, unions list distinct fields, and a plain object in the data array is the extension object at its end.
- StringOrder.StrCmp: characters compare by code point; JavaScript compares keys by UTF-16 units, which orders characters beyond the basic plane differently.
- Varint.Tag: wire types are below 8.
