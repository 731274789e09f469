# The event loop of eveboros, as a verified model

eveboros is a recursive event loop: events live in a slab, callbacks are dispatched from a queue, and a
callback may insert events, post to them, or run the very same loop again. This project models that
loop and proves what it keeps over every run, for any callbacks and any nesting.

The model has three layers.

* **A machine** (`EventLoop.dfy`). `LoopState` is everything the loop owns; `Action` lists the primitive
  steps; `Can` is the guard of a step, `Asserts` the assertions, indexings and unsigned subtractions
  which the source executes in it, `Apply` its effect. Callbacks that are being executed are a stack of
  frames, so a run is a flat list of actions and covers runs that never end. `Reachable` states are those
  that some run of a fresh loop leads to. `History.dfy` says of each index of the loop, from the past of the
  run alone, what is in it: what was put there and has not been taken out since. `Queueing.dfy` says the
  same of the queue of tasks and of the messages from other threads. Neither refers to how `Apply` computes
  the next state. The other theorems about runs are in `Runs.dfy`, `Dispatch.dfy`,
  `Timers.dfy`, `EagerTimers.dfy`, `IoRelease.dfy`, `Registrations.dfy` and `WrongCallbacks.dfy`;
  `Invariants.dfy` has the inductive invariant.
* **The code** (`Loop.dfy`, `Recycler.dfy`). The class `Loop` has the fields and methods of
  `src/core.rs`, updates them in place, and calls itself recursively through the callbacks. What is not
  part of the library (requests and responses of callbacks, the error handler, `poll`, `waitpid`, the
  clock) is read from a list of moves that is arbitrary; where it ends, observation ends (`Halt`). Every
  method records its actions, and `Valid` says that the record is a run of the machine which leads to
  exactly the current fields. So each theorem about reachable states holds of the code, inside nested
  callbacks too.
* **The control flow** (`Control.dfy`, `Moves.dfy`). A state of the machine does not say which method
  goes on. `Control.Path` does: a stack of frames for the calls in progress, and steps that say for each
  frame what it does next, which move it reads if it asks for one, with which outcome it returns, and who
  then goes on. `Moves.PollIs` has the exact shape of a wait. The methods of `Loop` are proved to go
  along such a path, from the frame of their call to the frame of their caller (`Following`, `Returned`),
  and to stop anywhere else only for one of the reasons in `Control.Stops`: the next move is missing or
  no answer to what is asked at that point, or an assertion of the source fails there. So a method can
  neither leave something out nor give up early. `Rounds.dfy` and `NestedRuns.dfy` have what follows for
  a whole `run_one` and for nested `run`s.

`Signals.dfy` is the protocol between signal handlers and loops as interleaved atomic steps of any number
of loops and signals; `SignalDispatch.dfy` is the registry behind the handler.
`Preservation.dfy`, `Steps.dfy`, `StepFacts.dfy` and `LoopFacts.dfy` only serve the proofs.

## Where the code and its documentation differ

* `io_remove` (src/core.rs:1591-1603) releases the index at once and queues it for release as well; its
  comment says it is only queued. `RemovePolicy` selects the two readings and everything is proved for
  both. What is only always true of the second has exact conditions for the first:
  - a gathering is safe, and the slots are partitioned, exactly if every index that a callback removed
    since the last gathering was registered again by an event that has died
    (`Registrations.GatheringsSafeExactly`), and it fails exactly if one was not registered again at all
    (`Registrations.GatheringFailsExactly`);
  - the callback for a readiness is for the registration that was ready exactly if the slab named the
    owner of that registration and the owner did not register the index again
    (`Registrations.ReadinessReachesItsRegistration`).

  `IoRelease.ShortestFailure`, `WrongCallbacks.DeliversToWrongRegistration` and
  `WrongCallbacks.CallsTheWrongEvent` are runs that go wrong; in the last one a second event, which never
  removed anything, is called for the IO of the first.
* `stop` is documented to end the innermost `run` only (src/core.rs:239). There is one flag, so it ends all
  `run`s in progress, unless somebody asks for another one before they return: `Rounds.StopEndsRuns` for
  every path, `NestedRuns.StopEndsTwoRuns` for a path with two.
* The deadlock check is made in the first round of `run_until_complete` only, because "it can't change
  later on" (src/core.rs:1453-1461). That is true: see `LoopObject.Loop.RunUntilComplete`.
* A sweep of the signal flags can end early when `waitpid` fails (src/core.rs:1191). Then a signal can be
  lost for good: `Signals.AbortLosesExactly` gives the exact condition, `Signals.AbortGetsStuck` a run, and
  `Signals.StuckForGood` says that only another dispatch helps. The rest of what was ready at that moment is
  not handled either, and the round does not get to the timers (`Moves.IsCutGather`, `Moves.CutBy`).
* The comment at src/core.rs:926-927 promises pruning when there are more dead timers than live ones; the
  code waits for more than five, and more than three times as many (`Timers.CleanupBoundsHeap`).
* `Loop::channel` is documented to check that the event is alive (src/core.rs:42-43); it does not
  (src/core.rs:1491-1496). Messages that arrive for a dead event are dropped when they are received.
* A task for an event that is in the middle of a callback is used up and answered with Busy
  (src/core.rs:1416): `WasBusy` is one of the fates in `Dispatch.FateFits`, `Rounds.BusyExactly` says when
  a call returns Busy, and `NestedRuns.BusyUsesUpTask` is a path on which a message is lost that way.

## Model

| member | source | states |
|---|---|---|
| Runs.RunKeepsInv | src/core.rs:910-954 | every state of every run satisfies the invariant: generations, stack of callbacks, timers, IO slots, children, idle requests, signal recipients, messages, task history |
| Runs.OnlyDoubleChildPanics | src/core.rs:1624 | with the deferred release, a step fails one of the modelled assertions, an index or an unsigned subtraction if and only if it watches a child that is already watched (not modelled: the address that `StolenCell` compares, and system calls) |
| Runs.AssertsHold | src/core.rs:1129 | whatever `io_remove` does, no other of the modelled assertions fails, among them the ones of stealing, reaping and counting timers (not modelled: the address that `StolenCell` compares, and system calls) |
| Runs.DeadStaysDead | src/core.rs:1476-1478 | over any run a handle that was handed out and is not alive never becomes alive again, even when its slot is reused |
| Runs.LiveHandlesUnique | src/core.rs:1390-1407 | in every reachable state live events have distinct generations below the counter |
| History.EventsAre | src/core.rs:1390-1411 | over any run an event is alive exactly from its insertion until a callback of it returns and not in order to go on |
| History.ExpectedTypesAre | src/core.rs:1570-1572 | over any run an event expects exactly the types that it asked for while it lives |
| History.RecipientsAre | src/core.rs:1565-1569 | over any run the recipients of a signal are exactly the live events that asked for it |
| History.EnabledAre | src/core.rs:1377-1386 | over any run a signal is enabled exactly if somebody asked for it, or watched a child in the case of SIGCHLD |
| History.IdleRequestsAre | src/core.rs:1562-1564 | over any run an event waits to be idle exactly if it asked and has neither been served nor died since |
| History.WatchedChildrenAre | src/core.rs:1622-1627 | over any run a child is watched exactly by the event that asked, until it is reaped or the event dies |
| History.OwnedIosAre | src/core.rs:1573-1583 | over any run an event owns exactly the IOs that it registered and has not removed, while it lives |
| History.CallbacksAre | src/core.rs:1044-1059 | over any run a callback is in progress exactly from its entry until it returns |
| Runs.RunLater | src/core.rs:1390-1407 | over any run generations, registrations and the clock grow, task history is only extended, and the expected types of a surviving event only grow |
| Runs.OneFlagForAllRuns | src/core.rs:1466-1475 | the flag that all nested `run`s look at is what the last start or stop set |
| Rounds.StopEndsRuns | src/core.rs:1466-1475 | on every path from a point where the flag is off, until another `run` is asked for: it stays off, no `run` is added, and each `run` in progress ends as soon as its round returns |
| NestedRuns.StopEndsTwoRuns | src/core.rs:239 | a path of a fresh loop with a `run` inside a `run`: one stop by the innermost callback, the two callbacks return, and both `run`s are over |
| Dispatch.StolenAreFrames | src/stolen_cell.rs:25-37 | in every reachable state the stolen events are exactly the active callbacks, each once, and all alive |
| Dispatch.CallsFindTheirEvent | src/core.rs:1035-1079 | a call always finds its event; when a callback returns its event is still there and stolen, only it is freed, and it dies exactly unless the response was to go on |
| Dispatch.FateFits | src/core.rs:1423-1449 | each step settles at most one task: dropped only if the recipient is dead or lost the IO, busy only if the recipient is an active frame, else its callback is entered |
| Rounds.BusyExactly | src/core.rs:1035-1079 | in any step of a path the outcome is Busy if and only if a call found its event in the middle of a callback or the error handler answered so |
| Rounds.RequestAnswers | src/core.rs:1303-1337 | in any step of a path: Missing for a dead recipient, MsgUnexpected for a type that a live one does not expect, and otherwise the message is queued or the event is called; IoError for a refused registration, MissingIo for an IO of somebody else; DeadLock for a busy event to wait for |
| Rounds.HandlerAnswers | src/core.rs:1071-1077 | a call that failed returns what the error handler makes of the error |
| NestedRuns.BusyUsesUpTask | src/core.rs:1416 | a path on which a nested `run_one` takes a message for its own caller, answers Busy, and the message is settled without a callback |
| Dispatch.SettledInOrder | src/core.rs:1314-1325 | over every run, nested included, the tasks of an event are settled in the order they were queued, none lost, none twice |
| Queueing.QueueGrows | src/core.rs:1137-1252 | each step takes the head of the queue if it takes a task, and appends exactly what `Queued` lists for the state before it: a message that is accepted, one Child task for a watched child, one Signal task for each recipient, the readiness of an IO, a timer, an idle task |
| Queueing.EverythingQueued | src/core.rs:1163-1252 | over any run exactly these tasks were queued, in this order, and no others |
| Queueing.BroadcastTellsAll | src/core.rs:1193-1199 | a broadcast queues exactly one task for each recipient of the moment and none for anybody else |
| Queueing.ReceivedInOrder | src/core.rs:1163-1177 | over any run the messages from other threads are looked at in the order in which they arrived, each once, and none is lost before |
| Queueing.PostCalls | src/core.rs:1327-1337 | a posted message is handed to the event at once, with its data, its type and who posted it, exactly if the event lives and expects the type |
| Queueing.DeathTakesOnlyItsOwn | src/core.rs:1009-1033 | when an event dies, each index loses exactly what was its own: the idle requests of the others stay in order, the other recipients, children, holders, timers and messages are untouched |
| Queueing.GoingOnChangesNothing | src/core.rs:1059-1070 | when a callback returns in order to go on, its event is free again and nothing else changes |
| Queueing.IdleRequestsInOrder | src/core.rs:1562-1564 | a new idle request goes to the end and leaves the others in order |
| Dispatch.DeliveredTypesExpected | src/core.rs:1303-1336 | a message callback starts only with a type the event expects at that moment, or with a background result |
| Registrations.SameRegistrationExactly | src/core.rs:1591-1603 | over any run of either reading, an event that owns an index before and after holds the same registration if and only if it did not register the index again |
| Registrations.ReadinessReachesItsRegistration | src/core.rs:1206-1212 | from a readiness in any reachable state of either reading until its task is at the head of the queue: the task is for whom the slab named; a callback is prepared exactly if that event owns the index; it is for the registration that was ready exactly if the slab named its owner and the owner did not register the index again |
| Registrations.RegisteredAnew | src/core.rs:1573-1583 | over any run, whatever was released when, an owner holds a new registration exactly if it registered that index in the run, and then one that is newer than all before |
| Registrations.SameUnlessRemoved | src/core.rs:1598-1600 | as long as no gathering takes a slot from its owner, only an owner that removed the index can have registered it again |
| WrongCallbacks.DeliversToWrongRegistration | src/core.rs:1426-1435 | code as written: a run of a fresh loop that enters the IO callback of an event for a registration that it has replaced |
| WrongCallbacks.CallsTheWrongEvent | src/core.rs:1206-1212 | code as written: a run of a fresh loop that enters the callback of an event for a registration of another event |
| Dispatch.IndexesConsistent | src/core.rs:1622-1627 | the table of children and the sets of the events are mutual inverses; idle requests and signal subscriptions are of live events; a signal with subscribers is enabled |
| Dispatch.DeadIsForgotten | src/core.rs:1009-1033 | a dead event is in no index, and what it held in the IO slab waits for release |
| Timers.StatisticsExact | src/core.rs:1224-1231 | the three counters and the count of each event are exact in every reachable state, so nothing underflows and the dead timers in the heap are computed exactly |
| Timers.CleanupBoundsHeap | src/core.rs:1219-1240 | after cleaning up the heap is at most five larger than, or four times, the live timers; what is removed is nothing or exactly the timers of dead events |
| Timers.FiresOnceAndNotEarly | src/core.rs:1437-1441 | in any run a timeout is taken for dispatch only when its deadline has come, and never taken again |
| EagerTimers.StepSimulates | src/core.rs:1009-1012 | each step of the lazy store is a step, or nothing, of a store that deletes the timers of an event when it dies |
| EagerTimers.LazyRefinesEager | src/core.rs:923-928 | over every run the live timers of heap and queue are exactly the contents of the eager store after the same timer steps |
| IoRelease.RemoveBreaksGathering | src/core.rs:1594-1601 | code as written: after a removal the next gathering fails, whatever happens before it, unless the index is registered again |
| Registrations.GatheringFailsExactly | src/core.rs:1258-1261 | code as written, after safe gatherings: the next one fails the assertion of the slab if and only if some index removed since the last one was not registered again |
| Registrations.GatheringSafeExactly | src/core.rs:1258-1261 | code as written, after safe gatherings: the next one neither fails nor takes a slot from its owner, and the slots are partitioned, if and only if each index removed since the last one was registered again by an event that has died |
| Registrations.GatheringsSafeExactly | src/core.rs:1591-1603 | code as written: all gatherings of a run are safe if and only if that condition on the removals before each of them holds |
| Registrations.SlotsPartitionedExactly | src/core.rs:1009-1017 | over any run of a fresh loop, each IO slot has one owner, or waits for release, or is empty: always with the deferred release; for the code as written, after safe gatherings, exactly if the removals since the last one meet the condition of the next |
| Registrations.NoRemovalsSafe | src/core.rs:1013-1017 | code as written: a run in which no callback removes an IO has safe gatherings only |
| Registrations.FreshSound | src/core.rs:960-997 | a new loop meets the conditions from which these runs start |
| IoRelease.ShortestFailure | src/core.rs:1258-1261 | a five-step run after which gathering fails for the code as written and succeeds for the deferred release |
| LoopObject.Loop.constructor | src/core.rs:960-997 | a new loop is the start of the machine |
| LoopObject.Loop.EventKill | src/core.rs:1009-1033 | the event leaves the slab and every index, its timers count as dead, its IO indexes wait for release; idle requests, recipients, children and holders of all other events are untouched and in order |
| LoopObject.Loop.EventCall | src/core.rs:1035-1079 | Missing or Busy exactly for a dead or stolen target and then nothing is called; else the callback is entered and left, the event lives on exactly if the response says so, and a failure gives what the error handler makes of it; on return the frames are those from before, and it does not stop earlier except where `Stops` says |
| LoopObject.Loop.ErrorHandler | src/core.rs:1071-1077 | the verdict of the handler is the outcome: success if it swallows the error, else the error that it gives |
| LoopObject.Loop.Callback | src/core.rs:1047-1057 | any body of a callback carries out its requests one after the other, nested ones included, up to its response; it stops earlier only at a move that is missing or no request, or where an assertion fails |
| LoopObject.Loop.Perform | src/core.rs:1389-1497 | one request of the owner or of a callback: its actions, all that it calls, and its outcome are as `AfterRequest` and the steps after it say, and its caller goes on when it is done |
| LoopObject.Loop.TimeoutAt | src/core.rs:1081-1096 | a new timer with a fresh id, counted for its event |
| LoopObject.Loop.TimeoutMin | src/core.rs:1099-1121 | zero with idle requests, else exactly the time to the earliest live deadline, nothing if there is none, whether one counts the dead timers or not, and no other value is right; only dead timers are thrown away, and none is left on top |
| LoopObject.Loop.ReapOne | src/core.rs:1124-1134 | if the child is watched, one Child task with its exit status for the event that watches it, and the child is in no table any more; otherwise nothing |
| LoopObject.Loop.ChildrenGather | src/core.rs:1123-1149 | queues exactly one task, with the exit status, for the first death of each watched child, in the order of the deaths; those children are watched no more; the assertion on the event holds; fails exactly when `waitpid` does |
| LoopObject.Loop.SweepSignals | src/core.rs:1186-1201 | queues exactly one task for each recipient of each raised signal, those for the reaped children if SIGCHLD is among them, and nothing else; one broadcast for each raised signal, in order, the dead children before the broadcast of SIGCHLD; only a failing `waitpid` cuts the sweep short, there |
| LoopObject.Loop.BroadcastOne | src/core.rs:1193-1199 | queues exactly one Signal task for each recipient of the signal and nothing else |
| LoopObject.Loop.ReceiveOne | src/core.rs:1163-1177 | takes the first message and queues it exactly if it is a background result or its recipient lives and expects its type |
| LoopObject.Loop.DrainChannel | src/core.rs:1159-1180 | empties the channel; queues exactly the messages that pass, in order |
| LoopObject.Loop.TasksGatherIo | src/core.rs:1151-1217 | for each readiness exactly its actions, in order: all messages the first time that the channel is ready, a sweep, or one task for the IO; the queue grows by exactly the tasks of these actions; a failing `waitpid` ends it, with exactly what came before and the reaped children; queues no timers, changes no liveness, and stops only at a readiness of an IO that the slab has lost |
| LoopObject.Loop.TimersCleanup | src/core.rs:1219-1240 | computes the statistics with subtractions that do not underflow, and prunes as the machine does |
| LoopObject.Loop.TasksGatherTimers | src/core.rs:1242-1252 | moves exactly the due timers to the queue, each once, in the order of their deadlines |
| LoopObject.Loop.TasksGather | src/core.rs:1256-1301 | drains the released slots, then Empty exactly for a loop without events; else the wait is as `PollIs` says, from the actions before it on: dead timers on top dropped, and what was ready gathered from that state; if a timer is queued, one is of a live event, and no due timer is left; without an answer of the poller, and only then, it stops |
| LoopObject.Loop.TypeCheck | src/core.rs:1303-1312 | no error exactly if the event lives and expects the type, Missing exactly if it is dead, MsgUnexpected exactly if it lives and does not expect it |
| LoopObject.Loop.SendImpl | src/core.rs:1314-1325 | queues the message with its data, type and sender at the end exactly if the event lives and expects the type; otherwise Missing or MsgUnexpected, and nothing changes |
| LoopObject.Loop.PostImpl | src/core.rs:1327-1337 | Missing for a dead event, MsgUnexpected for a type it does not expect, Busy for an active frame, and otherwise the callback is entered and left at once |
| LoopObject.Loop.PreparePost | src/core.rs:1327-1337 | what is to be handed over is this message, from this sender, for this event |
| LoopObject.Loop.SignalEnable | src/core.rs:1377-1386 | enabling an enabled signal changes nothing |
| LoopObject.Loop.InsertExact | src/core.rs:1390-1411 | a handle with a fresh generation in a slot that was free; its `init` callback is entered and left, and the event is alive afterwards exactly if the response says so |
| LoopObject.Loop.TakeTask | src/core.rs:1423-1441 | takes the head of the queue and calls for a callback exactly when the recipient lives and owns the IO; otherwise the next task is looked at, or the round is over |
| LoopObject.Loop.RunOne | src/core.rs:1415-1449 | goes along the path from the head of its loop to its caller: drops tasks of dead events, dispatches the first other one, gathers whenever the queue is empty, and returns what that call or that gathering gave; on success and on error exactly the same events are in a callback as before |
| Rounds.OneTaskPerRound | src/core.rs:1415-1449 | from its call until it returns, with anything nested in it, `run_one` takes a task for a callback at most once, and exactly once if it got that far |
| Rounds.RoundWithoutCall | src/core.rs:1426-1435 | it returns without a call only with success after a task for a lost IO, with Empty, or with the error of a wait |
| LoopObject.Loop.RunUntilComplete | src/core.rs:1450-1465 | Ok only when the event is dead; DeadLock at once for an active frame; otherwise one round after the other until an error or the death of the event; the target is never stolen at a later round |
| LoopObject.Loop.Run | src/core.rs:1466-1472 | sets the flag and runs one round after the other until the flag is cleared or a round fails |
| LoopObject.Loop.Session | src/core.rs:1389-1497 | everything that the owner and the callbacks asked for was done in that order, and nothing more of the kind that has to be asked for; the tasks ever queued are exactly those of the actions; moves that always fit are read to the end; the loop is in a reachable state, and no callback is active between requests |
| Control.FramesAgree | src/core.rs:1035-1079 | at every point of every path the frames nest properly, there is one for each callback in progress, and a call is prepared exactly when one is about to be made |
| Control.DoneAsAsked | src/core.rs:1389-1497 | at every point of every path the actions that have to be asked for are those that the moves asked for, in that order |
| Control.StopsAtTheEnd | src/core.rs:1047-1057 | with moves that are answers wherever the loop asks, it lacks an answer only after the last of them, and no child is watched twice |
| LoopObject.Loop.IoIdx | src/core.rs:1505-1513 | only the owner of an IO gets at its index |
| LoopObject.Loop.Idle | src/core.rs:1562-1564 | afterwards the event waits to be idle, once, and the others as before |
| LoopObject.Loop.Signal | src/core.rs:1565-1569 | enables the signal and adds the event to its recipients, and to no others |
| LoopObject.Loop.ExpectMessage | src/core.rs:1570-1572 | adds a type to the expected ones |
| LoopObject.Loop.IoRegister | src/core.rs:1573-1583 | a slot that was free names the owner; a refused registration leaves no trace |
| LoopObject.Loop.IoRemove | src/core.rs:1591-1604 | MissingIo exactly for an IO of somebody else; otherwise the effect of the chosen policy, also when the poller fails to deregister |
| LoopObject.Loop.Child | src/core.rs:1622-1627 | adds both directions of the relation and enables SIGCHLD, or fails the assertion on a child that is watched |
| Recycler.StoreRefinesMap | src/recycler.rs:59-72 | storing uses an index that is not live and changes nothing else |
| Recycler.ReleaseRefinesMap | src/recycler.rs:78-83 | releasing removes exactly one item and keeps the free stack exact |
| Recycler.LenIsSize | src/recycler.rs:98-100 | slots minus free entries is the number of items |
| Recycler.SlotsArePeak | src/recycler.rs:59-83 | after any run there are as many slots as items were ever stored at once |
| Recycler.Recycler.Store | src/recycler.rs:59-72 | the object does what the slab value does, and refines a finite map |
| Recycler.Recycler.Release | src/recycler.rs:78-83 | returns the old content and frees the slot |
| Signals.NoLostWakeUp | src/core.rs:1182-1188 | in every interleaving without an aborted sweep, a flag that is set has a wake-up in the channel or coming, or is ahead of the sweep; no loop is ever stuck |
| Signals.AbortLosesExactly | src/core.rs:1189-1191 | an aborted sweep uses up its signal although nobody is told; no other wake-up is lost if and only if each flag behind it that is set has a wake-up of its own on the way; the loop is stuck with exactly the flags behind it unless a wake-up waits or is coming |
| Signals.AbortGetsStuck | src/core.rs:1187-1191 | with both orders as in the code, a run with two signals and one aborted sweep leaves the loop stuck with the second |
| Signals.StuckLeftExactly | src/core.rs:1181-1185 | a stuck loop gets out by the beginning of a dispatch that reaches it, or by going away, and by no other step |
| Signals.StuckForGood | src/core.rs:1181-1202 | over any run a stuck loop stays so unless a dispatch that reaches it begins |
| Signals.SendFirstGetsStuck | src/signal_dispatch.rs:66-76 | sending the wake-up before the flag is set leads to a stuck loop |
| Signals.DrainLastGetsStuck | src/core.rs:1182-1185 | emptying the channel after the sweep leads to a stuck loop |
| Signals.SignalsMerge | src/core.rs:1187-1200 | one or more dispatches since the last sweep give exactly one task for each recipient of the moment, none give nothing |
| Signals.RegisteredOnce | src/core.rs:1377-1386 | in every run a loop is registered at most once for a signal, also while a dispatch has taken the list out |
| Signals.FreshWorld | src/signal_dispatch.rs:34-40 | a process without registrations meets the invariants that the theorems on signals start from |
| SignalDispatcher.SignalDispatch.Register | src/signal_dispatch.rs:41-51 | the handler is installed with the first registration; the notifier goes to the end |
| SignalDispatcher.SignalDispatch.Dispatch | src/signal_dispatch.rs:52-83 | sets the flag of everybody, leaves a wake-up with everybody who is there, and drops exactly those who are gone, keeping the order |
| Signals.UninterruptedDispatch | src/signal_dispatch.rs:52-83 | the atomic steps of a dispatch that nothing interrupts have together exactly that effect |
| SignalDispatcher.SignalDispatch.DispatchAlone | src/signal_dispatch.rs:52-83 | the objects change as the world of the protocol does in these steps, whatever numbers stand for the notifiers |

## Left out

- Registrations.SlotsPartitionedExactly: for the code as written it says nothing about runs in which a gathering has already taken a slot from its owner; what callbacks are then for is in Registrations.ReadinessReachesItsRegistration.
- LoopObject.Loop.SignalEnable: sets the flag of the loop; that the loop is also registered with the dispatcher of the process is SignalDispatch.Register, which an object of one loop cannot reach.
- Three ways to panic are not among the assertions: the unwraps of `deregister` (src/core.rs:1015) and of `sigaction` (src/signal_dispatch.rs:46), as the system calls are taken to succeed there, and the comparison of addresses in `unsteal` (src/stolen_cell.rs:35), which can fail when a nested insert made the slab move its slots (src/recycler.rs:68).
- Waking up for the signal channel while it is empty (mio may report a readiness that is gone) is not a step of Signals.dfy; such a sweep could find a flag that is stuck.
- Events by value: the holder of an event is a value in the slab, as in the source, and its `StolenCell` is the field `stolen`; its raw pointer is not modelled.
- The heap of timers is a set with a smallest entry on top; equal deadlines may come out in any order, as with `BinaryHeap`.
- Generations, timeout ids and counters are unbounded; wrapping after 2^64 allocations is not modelled.
- mio: registering and polling are answers in the list of moves; a poll reports only what is registered, and tokens come already decoded into channel, signals and IO.
- waitpid, sigaction, signal masks and the number of signals are parameters; an invalid signal number at src/core.rs:1189 does not arise for a flag that was registered.
- Message data and types are opaque; `Message::get` and the downcasts are not modelled.
- Background tasks and panics in them: their results arrive as messages whose type is not checked.
- The order of repeated idle requests of one event depends on `linked_hash_map`, so a request may keep its place or move to the end.
- `run_until_empty`, `timeout_after`, `io_update`, `io_mut` and the accessors only forward.
- LoopObject.Loop.Run: that a loop ever returns is not claimed; the list of moves bounds what is observed.
- After a failed assertion the source unwinds; the model stops there.
- Memory ordering weaker than sequential consistency, which the source does not use.
- src/adapt.rs, src/error.rs and the examples have no behaviour of their own.
