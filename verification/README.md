# Verified model of libmonitor and papiex

This project models the parts of libmonitor (`monitor/`) and papiex (`papiex/`) that run concurrently or do
non-trivial bookkeeping, and proves what they promise. `dafny verify dfyconfig.toml` checks all of it.

**Thread registry and process exit** (`monitor/src/pthread.c`, `monitor/src/main.c`). `ExitMachine` is an
interleaved step machine: a thread is a stack of calls of monitor routines, each call has a program counter, and each
step makes one access to the shared state (a condition over several flags of one node is one access; the test and the
store of `tn_fini_started` are separate steps). Threads are created, link their node under the spinlock, end by
cleanup, by the shootdown signal or in sigwait, and race for exit; signals, calls of `exit()` and of
`pthread_create()` may arrive on top of any call. `ExitLock`, `ExitRegistry` and `ExitRace` give assertions for each
program point and show that no step of another call disturbs them; `ExitInvariant` puts them together for all runs;
`ExitCallbacks` adds the thread callback, `ExitStacks` the call stacks and `ExitOwners` whose node a thread node is;
`ExitTheorems`, `ExitWinner`, `ExitNodes`, `ExitOnce` and `ExitRepeat` state the results, and `ExitExample` gives
concrete runs from the start of the process, put together from the stretches of `ExitRuns`, that show what each condition
is for; `ExitLosses` has a run for each way to lose a node. Proof-only history (the owner of the lock, the call in
charge of a node, the trace of callbacks) is never read by a step. `ExitTests` says what each test lets by in terms of
the flags, and `ExitBlock`, `ExitEnds`, `ExitIds` and `ExitTimeout` what follows over whole runs: what blocking shootdown
does, how calls end, what tn_tid tells, and why the winner gives up.

The remaining modules, each on its own:

- `Queue`: the `le_next`/`le_prev` lists as heap objects, where a slot is the address that points at an element, and the
  registry routines on top of them (`NodeLists` is what it shares with the step machine).
- `Atomic`, `Spinlock`: the load-linked/store-conditional loop as a refinement of an atomic compare-and-swap, and the
  test-and-test-and-set lock on top of the loop itself.
- `Signals`, `SignalTable`, `SignalHistory`: the signal table as values with all call histories, the routines on the
  array, and each flag in terms of the calls made.
- `Startup`, `StartupOverlap`, `StartupCalls`: the order of the start callbacks, with the two separate flags named
  `monitor_has_reached_main`, and who calls them.
- `ShootdownLoop`: the shootdown loop against an arbitrary environment; it ends.
- `SignalText`, `SignalPrinters`: the signal printers, a reader for their text, and the buffer.
- `MpiNesting`: nested MPI wrappers as call trees.
- `Calipers`, `Aggregate`: papiex counts; `RankHandshake`: the files shared by the ranks of a job.
- `EventSet`: the choice of compatible events; `WaitSome`: the Fortran wrapper of `MPI_Waitsome`.

## What is not unconditional

Some promises hold only under a condition; the code is modelled as it is, and the condition is stated.

- `monitor_fini_thread` once per node life: the test (`monitor/src/pthread.c:869`) and the store (`:879`) are separate,
  so a signal between them makes the callback run twice. `FiniThreadAtMostOnce` assumes `RaceFree`, that no two calls
  are between test and store for one node; `RaceCallsTwice` and `CallbackTwice` show that this is needed, and
  `StaleStoreLate` that the results about the time after the walk that assume it need it too. Over all
  runs it is exact that a callback is repeated if and only if a store finds the flag already set (`OnceExactly`).
- Thread callbacks before the process callback: after a clean walk every other started thread has had its callback
  begin and return (`ThreadsBeforeProcess`). `CleanWalk` says that the loop ended without its timeout and that no thread
  that the last walk passed over has become application-started since (`monitor/src/pthread.c:938` may come after the
  walk); `TimeOutMissed` and `LateStartMissed` are runs that need the two halves. What can still be open is the
  winner's own callback, exactly when its node has `tn_fini_started` set and `tn_fini_done` not, which
  `monitor/src/pthread.c:610` does not test (`ReturnedBeforeProcess`); that happens when a callback calls `exit()`
  (`OwnCallbackOpen`).
- Every node is on one of the two lists or in the hands of one call, or lost for good (`ExactlyOnePlace`,
  `LostForGood`). A node is lost if and only if a call ends with it in one of four ways (`LostExactly`): its thread is
  refused in exit cleanup, its thread is cancelled in the `usleep` of the wait for thread support
  (`monitor/src/pthread.c:912-913`, before the cleanup handler is pushed), its creator is cancelled in
  `monitor_thread_pre_create` (`:1061`), or the real `pthread_create` fails. Each of them happens (`ThreadRefused`,
  `WaiterCancelled`, `CreatorCancelled`, `CreateFails`).
- No thread callback begins for a node while its shootdown is blocked, except by the winner for its own
  (`BlockedNeverBegins`); a thread that ends blocked, or is cancelled in `monitor_init_thread`, ends without a callback,
  since the cleanup routine returns at its test (`NodeTests`), and its node stays on the thread list (`InitCancelled`).
- After `monitor_fini_thread_done` is set, a thread callback can still begin, even inside the process callback
  (`CallbackInProcess`), because the test of that flag and the store come apart. A call on top of its thread can do so if
  and only if it has passed its test (`CallsAfterDone`); no other call ever does (`NoNewCallers`).
- Losers wait for the process callback, unless a call of `exit()` is taken for the winner's thread calling it again
  (`monitor/src/main.c:319-338`). If no thread calls `exit()` after it has given its node back, only the winner's thread
  is taken for it (`LosersWaitForWinner`), and a call that is taken for it is made by it if and only if the node it found
  is its thread's own (`TakenForWinner`). Either kind of call can release a waiting loser (`RepeatReleases`):
  `WinnerReenters` is a run where the process callback calls `exit()`, and `StaleNodeReleases` one where a finished
  thread, whose thread-specific data still names the node that the winner has been given since, calls it before the
  process callback has even begun.
- Thread support at most once: fails exactly through two overlapping calls of `monitor_call_thread_support`
  (`SupportOnceExactly`: from any overlap a run can go on to a second callback). They cannot overlap if, until it is
  done, no thread is told to be ignored and the callback creates no thread (`SupportOnceIfCalm`); without either
  condition it can run twice (`NestedCreateRepeats`, `IgnoredCreateRepeats`).
- The shootdown signal was in no earlier mask if and only if the kernel accepts SIGWINCH or the environment chose the
  signal (`NeverMaskedExactly`). Afterwards it stays out of all masks if and only if it was marked keep-open
  (`ChosenStaysOpen`), since `monitor_shootdown_signal` does not mark it.
- A rank that reads the path container between rank 0's `fopen` and `fclose` finds it empty and exits; rank 0 then
  never reports (`FailsExactly`, `FailureIsFinal`, `TornRead`).
- Caliper shares of at most 100 percent: if and only if the point is never open while point 0 is closed
  (`ShareAtMostWhole`); the application may call `papiex_stop(0)`, and a process that lives on can break it
  (`StopZeroBreaks`).
- The signal printers check for 15 characters before each item; they stay inside the buffer for every size if and only
  if no item is longer with its comma and NUL (`InsideExactly`), as for numbers of up to five digits (`FiveDigitsFit`).
- `make_compatible_eventset` uses a null pointer on a list that consists of commas; the model gives no result then, and
  only then (`MakeCompatible`).

## Model

| member | source | states |
|---|---|---|
| ExitInvariant.InvRun | monitor/src/pthread.c:366-616 | the shared state and every call satisfy the assertions of their program points in every state of every run |
| ExitTheorems.MutualExclusion | monitor/src/pthread.c:172-183 | at most one call is in a critical section of the thread lock |
| ExitTheorems.FrozenList | monitor/src/pthread.c:407-440 | once monitor_in_exit_cleanup is set, no step of any thread changes the members or the order of the thread list; on it tn_self stays and the flags only go up |
| ExitTheorems.NodePlaces | monitor/src/pthread.c:366-440 | each node is on at most one list, once; a call in charge of a node is alone with it, and its node is on the thread list or in flight, never free; the thread list is strictly decreasing in tn_tid |
| ExitNodes.ExactlyOnePlace | monitor/src/pthread.c:366-440 | in every state of every run each node handed out so far is in exactly one of four places: thread list, free list, in flight with one call, or lost |
| ExitNodes.LostExactly | monitor/src/pthread.c:912-928 | in every run the nodes that are lost are exactly those with which a thread was refused in exit cleanup or cancelled in the wait for thread support, or whose pthread_create failed or whose creator was cancelled in monitor_thread_pre_create |
| ExitNodes.LostForGood | monitor/src/pthread.c:366-440 | a lost node is on no list again, no call has charge of it, and it is never taken |
| ExitLosses.WaiterCancelled | monitor/src/pthread.c:912-913 | a run in which a waiting thread is cancelled and its node is lost |
| ExitLosses.CreatorCancelled | monitor/src/pthread.c:1061 | a run in which the creator is cancelled in monitor_thread_pre_create and the node is lost |
| ExitLosses.CreateFails | monitor/src/pthread.c:1071-1082 | a run in which the real pthread_create fails and the node is lost |
| ExitLosses.ThreadRefused | monitor/src/pthread.c:924-928 | a run in which a thread is refused in exit cleanup and its node is lost |
| ExitLosses.InitCancelled | monitor/src/pthread.c:869-872 | a run in which a thread is cancelled in monitor_init_thread: it is gone without a callback, and its node stays on the thread list |
| ExitTheorems.MakeTakesUnused | monitor/src/pthread.c:371-399 | the node taken is in nobody's hands, on no thread list and not application-started, for any number of arrays |
| ExitTheorems.FiniThreadAtMostOnce | monitor/src/pthread.c:442-476 | without the race on tn_fini_started the thread callback starts at most once per node life over all four delivery paths, and the flags of a node tell exactly what its callback has done |
| ExitOnce.OnceExactly | monitor/src/pthread.c:869-883 | in all runs, races and all, the thread callback starts at most once per node life if and only if no frame at its store finds tn_fini_started of its node already set; the flags always tell whether a callback has begun and one has returned |
| ExitTheorems.RaceCallsTwice | monitor/src/pthread.c:869-883 | when two calls are about to store the flag of one node, on two threads or one on top of the other, the callback can be called twice |
| ExitExample.CallbackTwice | monitor/src/pthread.c:854-886 | a run from the start of the process reaches that race and calls the callback twice |
| ExitTheorems.ScanSettles | monitor/src/pthread.c:560-604 | in all runs, races and all, when the loop has ended without timeout every other node that the last walk saw application-started has tn_fini_done and its callback has begun and returned |
| ExitTheorems.OnlyWinnerStarts | monitor/src/pthread.c:605-616 | in a run without the race on tn_fini_started, after a clean walk the only callback that can start is for the winner's own node |
| ExitTheorems.FiniProcessOnce | monitor/src/main.c:296-318 | the process callback starts at most once in every run |
| ExitTheorems.LosersWait | monitor/src/main.c:326-340 | in every run no loser goes on before the process callback has returned, unless some call of exit() was taken for the winner's thread calling it again |
| ExitRepeat.LosersWaitForWinner | monitor/src/main.c:319-340 | if no thread calls exit() after it has given its node back, then the thread so taken is the winner's |
| ExitRepeat.TakenForWinner | monitor/src/main.c:319 | when the winner has marked its own node, a call that is taken for the repeat winner is made by the winner's thread if and only if the node it found is its thread's own |
| ExitRepeat.RepeatReleases | monitor/src/main.c:319-340 | the converse: any thread whose node has tn_exit_win, its own or one given back, can call exit() and release a waiting loser |
| ExitRepeat.OneWinner | monitor/src/main.c:302-303 | at most one thread wins process exit in every run |
| ExitOwners.OwnWhileLinked | monitor/src/pthread.c:918-924 | from the store of tn_self until its node is taken off the list, the node that pthread_getspecific gives a thread is its own |
| ExitOwners.MainOwns | monitor/src/pthread.c:228-236 | the main thread's node is its own for ever |
| ExitExample.WinnerReenters | monitor/src/main.c:319-338 | a run from the start of the process in which the process callback calls exit() and a loser goes on before the callback has returned |
| ExitExample.StaleNodeReleases | monitor/src/pthread.c:435-437 | a run from the start of the process in which a thread that has given its node back is taken for the winner that has been given it since, and a loser goes on before the process callback has begun |
| ExitTheorems.ThreadsBeforeProcess | monitor/src/main.c:303-318 | in all runs, races and all: after a clean walk, when the process callback is about to start, every linked and started thread other than the winner's has had its callback begin and return, and the winner's own has begun |
| ExitTheorems.OpenIsWinners | monitor/src/pthread.c:605-616 | in a run without the race, a callback that is open then, and a call that is inside one, is for the winner's own node |
| ExitTheorems.ReturnedBeforeProcess | monitor/src/pthread.c:610-616 | in a run without the race, some call is inside a callback then if and only if the winner's own node has tn_fini_started set and tn_fini_done not |
| ExitExample.StaleStoreLate | monitor/src/pthread.c:869-879 | a run with the race in which, after a clean walk, another thread's callback begins and runs when the process callback starts |
| ExitExample.OwnCallbackOpen | monitor/src/pthread.c:610 | a run from the start of the process in which a callback calls exit() and is open when the process callback starts, after a clean walk |
| ExitExample.LateStartMissed | monitor/src/pthread.c:938 | a run in which a thread becomes application-started after the walk and has no callback, without timeout |
| ExitExample.TimeOutMissed | monitor/src/pthread.c:589-602 | a run in which the loop times out and a started thread has no callback |
| ExitWinner.NoNewCallers | monitor/src/pthread.c:464-470 | after monitor_fini_thread_done is set, only a call that had passed its test before can still begin a callback in the handler, the cleanup routine or the sigwait helper |
| ExitWinner.CallsAfterDone | monitor/src/pthread.c:464-475 | a call on top of its thread can then still begin a callback, in some continuation, if and only if it has passed its test |
| ExitExample.CallbackInProcess | monitor/src/pthread.c:873-882 | a run in which a thread callback begins inside the process callback |
| ExitWinner.ClosedBeforeProcess | monitor/src/pthread.c:605 | monitor_fini_thread_done is set when the winner goes from its walk to the process callback |
| ExitWinner.SkipsOnlyUnused | monitor/src/pthread.c:521-524 | the winner passes over the shootdown only when no thread has been created and the thread list is empty |
| ExitWinner.WinnerReleases | monitor/src/main.c:331-339 | once the winner's call has returned, a waiting loser can go on |
| ExitCallbacks.CallRun | monitor/src/pthread.c:442-886 | in every run without the race, who is inside the callback of which life agrees with the flags and the trace, and every open callback is on the stack of its caller |
| ExitTests.NodeTests | monitor/src/pthread.c:459-462 | in every run the handler, the cleanup routine and the sigwait helper go on from their test of the node if and only if it is application-started, not fini-started and not blocked |
| ExitTests.CutoffTests | monitor/src/pthread.c:464-468 | they go on from the test of monitor_fini_thread_done if and only if it is unset, and the sigwait helper only in exit cleanup |
| ExitTests.RegistryTests | monitor/src/pthread.c:412-434 | a new thread goes on from its wait if and only if thread support is done; a thread is linked, and a node taken off the list, if and only if exit cleanup has not begun; a broadcast goes on if and only if the lock is free |
| ExitTests.ExitCallTests | monitor/src/main.c:302-319 | who wins, who is taken for the winner calling again, when threads are shot down and when the winner calls its own thread callback, by the flags |
| ExitTests.WalkTests | monitor/src/pthread.c:571-585 | the walk counts as unstarted and unfinished exactly the application-started nodes, not the winner's own, whose flags say so, and passes over the others |
| ExitTests.HeadTests | monitor/src/pthread.c:561-604 | the walk skips the winner's own node; the loop ends if and only if nothing was unfinished, or on the timeout if something was unstarted, and else starts a fresh walk |
| ExitBlock.BlockedNeverBegins | monitor/src/pthread.c:786-810 | while shootdown is blocked for a node, and no call was past its test for it at the start, its callback does not begin except by the winner for its own node |
| ExitBlock.BlockExactly | monitor/src/pthread.c:786-810 | tn_block_shootdown is set and reset by these two routines only, and reset when the node is cleared |
| ExitEnds.LockHeldExactly | monitor/src/pthread.c:172-183 | the thread lock is taken if and only if some call is in a critical section: no call leaves or returns with it |
| ExitEnds.SupportFirst | monitor/src/pthread.c:912-913 | no thread goes past its wait, and none is linked, before thread support is done |
| ExitEnds.GivesBack | monitor/src/pthread.c:879-885 | a thread whose callback the cleanup routine has called ends only after its node was put cleared at the head of the free list or, in exit cleanup, was marked on the thread list |
| ExitEnds.ApplStartedTells | monitor/src/pthread.c:938 | in every run tn_appl_started is unset in a thread's node from its making until its start routine is called, and set while that runs |
| ExitEnds.EndsInCleanup | monitor/src/pthread.c:930-942 | however a start routine ends, its thread comes to the cleanup routine |
| ExitIds.TidTells | monitor/src/pthread.c:393-440 | tn_tid is -1 from the making of a node until it is linked, positive on the thread list, and 0 on the free list and for the main thread |
| ExitIds.SignalsUseOwnNode | monitor/src/pthread.c:448-459 | the handler and the sigwait helper act on the node that pthread_getspecific gives their thread |
| ExitIds.ExitFindsOwn | monitor/src/pthread.c:223-239 | so does a call of exit(), whichever branch monitor_get_tn takes |
| ExitIds.WinnerMarked | monitor/src/main.c:308-310 | from its store to the end of its call, the winner's own node has tn_exit_win |
| ExitTimeout.TimeOutSaw | monitor/src/pthread.c:594-602 | if the loop ended by its timeout, the winner has seen a linked, started thread, not its own, whose callback had not begun |
| ExitTimeout.HandlerFirst | monitor/src/pthread.c:532-542 | the winner walks the list only after the shootdown handler is installed |
| Queue.ListHead.constructor | monitor/src/queue.h:342-344 | a list made by LIST_INIT is empty |
| Queue.InsertHead | monitor/src/queue.h:361-366 | LIST_INSERT_HEAD puts the element in front |
| Queue.Remove | monitor/src/queue.h:370-375 | LIST_REMOVE, given only the element, takes exactly it out of the list that holds it and writes to nothing but its neighbours |
| Queue.RemoveFromEither | monitor/src/pthread.c:373-376 | with two lists it takes the element out of whichever holds it and leaves the other as it was |
| Queue.DeleteAt | monitor/src/queue.h:370-375 | taking out the i-th element leaves those before and after it in order, and not the element |
| Queue.ChainUnique | monitor/src/queue.h:330-335 | the links determine the elements and their order |
| Queue.OneList | monitor/src/queue.h:361-366 | no element is in two lists |
| Queue.Registry.Take | monitor/src/pthread.c:373-392 | the head of the free list, else the next array element, else a new array; the node was not in use |
| Queue.Registry.MakeThreadNode | monitor/src/pthread.c:366-400 | returns a zeroed node that was not in use, with tn_tid -1, and changes the free list by at most its head |
| Queue.Registry.LinkThreadNode | monitor/src/pthread.c:407-421 | refuses in exit cleanup, else links the node in front with the next tn_tid; the list stays decreasing in tn_tid |
| Queue.Registry.UnlinkThreadNode | monitor/src/pthread.c:423-440 | in exit cleanup only marks the node finished, else moves it zeroed to the head of the free list |
| Atomic.StepRefines | monitor/src/atomic.h:156-169 | each step of the loop is the atomic swap of its own call or changes nothing that can be seen |
| Atomic.OnePointPerCall | monitor/src/atomic.h:156-169 | each call has exactly one linearization point |
| Atomic.AnswerIsValueAtPoint | monitor/src/atomic.h:161-168 | the call returns the value at that point, and replaces it exactly if it was as expected |
| Atomic.StoresExactly | monitor/src/atomic.h:161-168 | a store-conditional that does not fail for no reason succeeds if and only if, since its load-linked, there was no ordinary store, no successful store-conditional and no loss of the reservation |
| Spinlock.MutualExclusion | monitor/src/spinlock.h:57-72 | at most one thread holds the lock, for any number of threads and any spurious failures |
| Spinlock.TurnsAlternate | monitor/src/spinlock.h:74-82 | between two acquisitions the first holder has released |
| Spinlock.TryLockFails | monitor/src/spinlock.h:88-99 | trylock fails only when another thread owns the lock at its linearization point |
| Spinlock.LockReturnsHolding | monitor/src/spinlock.h:57-72 | until it unlocks, a thread that has called spinlock_lock is in its loop or in its compare-and-swap, or holds the lock, acquired since the call |
| Spinlock.TryLockReturns | monitor/src/spinlock.h:88-99 | spinlock_trylock stays in its compare-and-swap until it returns, with the lock if the answer was 0 and else without it |
| Spinlock.SwapsWhenFree | monitor/src/spinlock.h:61-65 | the inner loop goes on to the compare-and-swap exactly when it finds the lock free |
| Signals.FallbackUnreachable | monitor/src/signal.c:514-528 | in every history some signal of the list is open or one is chosen, so the last branch is never taken |
| Signals.ChoicePrefers | monitor/src/signal.c:486-513 | no open signal of the list is less used than the one returned |
| Signals.NeverMasked | monitor/src/signal.c:404-462 | the first signal returned was in no mask passed on before |
| Signals.NeverMaskedExactly | monitor/src/signal.c:341-366 | that holds of all histories if and only if SIGWINCH is valid or the environment chose the signal |
| Signals.LastResortMasked | monitor/src/signal.c:416-443 | otherwise two masks make it fail |
| Signals.ChosenStaysOpen | monitor/src/signal.c:476-533 | a chosen signal stays out of all later masks if and only if it is marked keep-open |
| SignalHistory.InitExactly | monitor/src/signal.c:277-385 | each flag of each entry after init, and the shootdown signal, in terms of the configuration |
| SignalHistory.ListExactly | monitor/src/signal.c:344-369 | the shootdown list is the usable ones of the thirteen signals tried, in order, and SIGWINCH |
| SignalHistory.HandlersExactly | monitor/src/signal.c:562-565 | after any history the client has a handler for a signal if and only if some call has set one and no later call has taken it away, and the application has been given one if and only if some call has caught the signal, among the signals that monitor manages |
| SignalHistory.FlagsExactly | monitor/src/signal.c:440-460 | after any history a signal is kept open if and only if it is on the client list, the client has called for it or it is the shootdown signal, and is marked blocked if and only if it is managed and was in a mask passed on |
| SignalHistory.PassedExactly | monitor/src/signal.c:446-460 | a call passes on exactly the signals of the mask it offers that are not managed or not kept open |
| SignalHistory.SettlesExactly | monitor/src/signal.c:416-443 | a call chooses the shootdown signal if and only if none is chosen and its mask covers all that no earlier call has masked; then it is the first of those |
| SignalHistory.ChoiceExactly | monitor/src/signal.c:486-513 | in terms of the calls made, monitor_shootdown_signal returns the first of the least used signals that no call has masked |
| SignalTable.SignalArray.constructor | monitor/src/signal.c:277-385 | builds the entries and the shootdown list of the configuration |
| SignalTable.SignalArray.RemoveClientSignals | monitor/src/signal.c:404-462 | the new table and the filtered mask |
| SignalTable.SignalArray.SettleShootdown | monitor/src/signal.c:416-443 | chooses the first open signal exactly when the mask covers all that are open |
| SignalTable.SignalArray.DropKeptOpen | monitor/src/signal.c:446-460 | the passed mask loses exactly the managed keep-open signals, and the rest of it is marked blocked |
| SignalTable.SignalArray.ShootdownSignal | monitor/src/signal.c:476-533 | the choice by order of preference |
| SignalTable.SignalArray.SigProcMask | monitor/src/signal.c:692-719 | masks to block or to set are filtered, all else is passed as it is |
| SignalTable.SignalArray.ApplSigAction | monitor/src/signal.c:610-662 | the application's handler call: refused for invalid signals, handed to the system as it is for those on the avoid list, else flag and filtered mask |
| SignalTable.SignalArray.ClientSigAction | monitor/src/signal.c:547-574 | the client's handler call: keep-open, handler and filtered mask |
| Startup.CallbackOrder | monitor/src/pthread.c:481-504 | init_process returns before thread support begins, and thread support returns before any init_thread begins, in every run |
| StartupCalls.ReleaseCallsSupport | monitor/src/pthread.c:497-504 | if threads have been used when main gets to monitor_thread_release, main gets to its own code only after thread support has returned |
| StartupCalls.CreateCallsSupport | monitor/src/pthread.c:1043-1049 | a pthread_create that begins after the release starts its thread only after thread support has returned |
| StartupCalls.SupportOnlyIfUsed | monitor/src/pthread.c:500-501 | thread support is called only in a process that has used threads |
| StartupCalls.NeverCalledAgain | monitor/src/pthread.c:1043-1049 | once main is in its own code and thread support is done, with nobody on the way to call it, no pthread_create calls it again |
| StartupCalls.StepStarts | monitor/src/pthread.c:1031-1073 | which steps start a thread: with a node, in its wait, or in its own code when it is ignored |
| StartupCalls.InitThreadExactly | monitor/src/pthread.c:912-936 | in every run monitor_init_thread is called once for each thread with a node that has got to its own code, and for no other thread |
| StartupCalls.MainAfterProcess | monitor/src/main.c:262-280 | main gets to its own code only after monitor_init_process has been called and has returned |
| Startup.SupportOnce | monitor/src/pthread.c:481-491 | thread support runs at most once unless two calls overlap |
| StartupOverlap.OverlapRepeats | monitor/src/pthread.c:481-491 | from every overlap the run can go on to a second support callback |
| StartupOverlap.SupportOnceExactly | monitor/src/pthread.c:481-491 | a run without an overlap so far can go on to a second support callback if and only if it can go on to an overlap |
| Startup.SupportOnceIfCalm | monitor/src/pthread.c:1026-1049 | no overlap, hence at most once, under two conditions a caller can see to |
| Startup.NestedCreateRepeats | monitor/src/pthread.c:1043-1049 | a support callback that creates a thread is called again |
| Startup.IgnoredCreateRepeats | monitor/src/pthread.c:1031-1049 | a thread that was ignored and the main thread can both call thread support |
| ShootdownLoop.Walk | monitor/src/pthread.c:561-584 | the three counts are the numbers of nodes, not the winner's own, with those flags; exactly the application-started and unstarted ones are signalled, in order |
| ShootdownLoop.Loop | monitor/src/pthread.c:557-604 | the loop ends, either with tn_fini_done set for each application-started thread that the walk saw, or after ten seconds in which no walk saw more threads start their callbacks, with one application-started and not started |
| ShootdownLoop.Settles | monitor/src/pthread.c:545-556 | if each started callback returns, then from some walk on all that has started is done |
| Calipers.TotalIsWindowSum | papiex/src/papiex.c:1502-1519 | a point's total is the sum over its windows of end less start, however many accums split them |
| Calipers.TotalIsGapSum | papiex/src/papiex.c:1601-1627 | it is also the sum over the gaps between calls in which the point is open |
| Calipers.ShareAtMostWhole | papiex/src/papiex.c:1171 | a closed point's total never exceeds point 0's for nondecreasing readings, if and only if it is never open while point 0 is closed |
| Calipers.ThreadCovers | papiex/src/papiex.c:2180 | that condition holds when the application leaves point 0 alone |
| Calipers.StopZeroBreaks | papiex/src/papiex.c:1489-1505 | it can fail in a process that lives: a stop and a start of point 0 while point 1 is open |
| Calipers.TurnsAlternate | papiex/src/papiex.c:1498-1503 | as long as no call has ended the process, a point is open exactly when it was started once more than stopped, and each accum and stop is counted |
| Calipers.ThreadData.StartPoint | papiex/src/papiex.c:1917-1997 | papiex_start for every event, the calls it ignores, and exactly when it ends the process |
| Calipers.ThreadData.AccumPoint | papiex/src/papiex.c:1557-1648 | papiex_accum for every event, the calls it ignores, and exactly when it ends the process |
| Calipers.ThreadData.StopPoint | papiex/src/papiex.c:1453-1535 | papiex_stop for every event, the calls it ignores, and exactly when it ends the process |
| RankHandshake.SamePath | papiex/src/papiex.c:261-280 | every rank that has a base path has rank 0's |
| RankHandshake.ReportAfterWrites | papiex/src/papiex.c:1847-1870 | when rank 0 starts the report every rank has finished the files of all its threads |
| RankHandshake.ReportFinds | papiex/src/papiex.c:1847-1870 | when rank 0 starts the report it has removed every mark, and the files are exactly those of all threads |
| RankHandshake.DeleteAfterRead | papiex/src/papiex.c:1860-1868 | the container is deleted only after every rank has read it, so no rank that saw it fails to open it |
| RankHandshake.FailsExactly | papiex/src/papiex.c:244-256 | a rank fails exactly by reading the container between rank 0's fopen and fclose |
| RankHandshake.FailureIsFinal | papiex/src/papiex.c:2442-2451 | a failed rank leaves no mark, so rank 0 never reports |
| RankHandshake.Progress | papiex/src/papiex.c:1860-1867 | unless a rank fails, some rank can always move until rank 0 is done |
| RankHandshake.RunsEnd | papiex/src/papiex.c:2407-2451 | every run ends: a job of n ranks and t threads takes at most n * (9 + n) + 2 * t steps |
| RankHandshake.Completes | papiex/src/papiex.c:1843-1870 | a run that cannot go on and in which no rank has failed has completed: rank 0 has reported and every rank is done |
| RankHandshake.TornRead | papiex/src/papiex.c:268-272 | the failing run exists |
| SignalText.ExpandRanges | monitor/src/utils.c:71-92 | expanding the ranges of a list gives back the list |
| SignalText.RangesMaximal | monitor/src/utils.c:77-82 | no range begins where the one before it ends |
| SignalText.ReadLineBack | monitor/src/utils.c:83-92 | the text determines the ranges |
| SignalPrinters.PrintedDetermines | monitor/src/utils.c:97-148 | when the result is not negative it is the length, and the text reads back as the list |
| SignalPrinters.SetDetermined | monitor/src/utils.c:43-95 | the same for sets |
| SignalPrinters.InsideExactly | monitor/src/utils.c:50 | the printers stay inside the buffer for every size if and only if each item with its comma and NUL has at most 15 characters |
| SignalPrinters.FiveDigitsFit | monitor/src/utils.c:83-92 | signal numbers of at most five digits have such items |
| SignalPrinters.OutcomeExactly | monitor/src/utils.c:71-92 | all items and the count if each finds 15 characters left; otherwise the items before the last that did, " and more", and -1 |
| SignalPrinters.PrintList | monitor/src/utils.c:104-148 | the buffer holds that text or, when it is too small, a shortened one, and nothing past its size is written, unless an item is longer than the code allows for and would be written past it, which is told exactly |
| SignalPrinters.PrintSet | monitor/src/utils.c:51-95 | the same for sets |
| MpiNesting.CallbacksBracket | monitor/src/mpi_init_c.c:28-38 | for every tree of nested wrappers the callbacks come once for each outermost call and bracket it, and the counters return to their values |
| MpiNesting.OncePerOutermost | monitor/src/mpi.c:58-78 | there are as many first and second callbacks as outermost calls |
| MpiNesting.FirstOfferWins | monitor/src/mpi.c:80-119 | size and rank are those of the first offer that counts; a comm_rank inside an init never counts, nor one before any init |
| MpiNesting.OfferWins | monitor/src/mpi.c:80-119 | the same offer by offer: the first of the trace that the client made, or a comm_rank outside and after an init |
| MpiNesting.NoOfferCounts | monitor/src/mpi.c:80-119 | without such an offer size and rank stay -1 |
| MpiNesting.Statics.CountBy | monitor/src/mpi.c:63-78 | the counters |
| MpiNesting.Statics.SetSizeAndRank | monitor/src/mpi.c:88-99 | the first setter wins |
| MpiNesting.Statics.SetMpiSizeAndRank | monitor/src/mpi.c:110-119 | only outside and after an init |
| MpiNesting.Statics.Invoke | monitor/src/pmpi.c:95-118 | a wrapper with all that runs inside it |
| EventSet.TokensJoin | papiex/src/main.c:104-109 | splitting a list that append_option built gives back its events |
| EventSet.OneCommaEach | papiex/src/main.c:104-109 | such a list has one comma between two events and none at its ends |
| EventSet.Partition | papiex/src/main.c:1186-1242 | each of the three lists is the requested events of one fate in the order of the request; each place of the request is in exactly one list |
| EventSet.AddableThroughout | papiex/src/main.c:1226-1239 | the accepted events, and each list of them on the way, can be added together |
| EventSet.RejectedForGood | papiex/src/main.c:1226-1235 | if events can be dropped from a set, none that the add test rejected can be added to the final set |
| EventSet.Stable | papiex/src/main.c:1162-1249 | run on its own answer it accepts everything |
| EventSet.SecondRun | papiex/src/main.c:1239-1244 | the same on the buffers |
| EventSet.Tool.Consider | papiex/src/main.c:1187-1241 | the loop body for one event |
| EventSet.Tool.MakeCompatible | papiex/src/main.c:1162-1249 | the three lists, the result and the flag; no result exactly for a list of commas only, where the routine uses a null pointer |
| EventSet.Strtok | papiex/src/main.c:1186 | strtok finds the tokens one by one |
| Aggregate.MeanBetween | papiex/src/papiex.c:2581-2601 | minimum, truncated mean and maximum are in order |
| Aggregate.MeanIs | papiex/src/papiex.c:2601 | the mean is the sum over the number of threads rounded toward zero, with its sign |
| Aggregate.VarianceError | papiex/src/papiex.c:2761-2817 | in exact arithmetic the variance about the truncated mean exceeds the true one by the squared error of the mean, less than 1 |
| Aggregate.SumsAndMeans | papiex/src/papiex.c:2483-2509 | sum and truncated mean of each event over the threads |
| Aggregate.MinsAndMaxs | papiex/src/papiex.c:2631-2741 | the least and the greatest count of each event |
| Aggregate.Variances | papiex/src/papiex.c:2761-2817 | the mean squared distance from the given means |
| WaitSome.WriteBack | papiex/src/mpiwrap_special.c:297-311 | the write-back loop |
| WaitSome.Report | papiex/src/mpiwrap_special.c:313-320 | statuses converted, and each index shifted to 1-based exactly once |
| WaitSome.MpiWaitSome | papiex/src/mpiwrap_special.c:284-325 | the wrapper writes back every handle and shifts every index, for any count and any completed indices (section 3.7.5 of MPI 3.1) |

## Left out

- ExitTheorems.FiniThreadAtMostOnce: assumes that no two calls are between the test and the store of tn_fini_started for one node, because they are separate statements in the code; CallbackTwice shows the need and ExitOnce.OnceExactly the exact condition.
- ExitTheorems.ThreadsBeforeProcess: assumes a clean walk; LateStartMissed and TimeOutMissed show that both halves are needed, and the winner's own callback may be open (ReturnedBeforeProcess says when).
- Memory ordering: all step machines are sequentially consistent.
- Reuse of pthread_t values, and nodes with a bad magic number (a node that was cleared is not application-started, which the handlers test first).
- Cancellation inside a thread callback that PTHREAD_CLEANUP_POP(1) runs, which leaves it begun and not returned for ever (the shootdown loop then has no end, since its timeout asks for an unstarted thread); cancellation of a loser in its usleep and of the winner inside the process callback.
- The registry in a forked child, and a process exit that begins before main and is then reset by the begin of the process.
- In the exit machine, thread support is done at some moment of its own (`Startup` covers when) and the timeout may strike in any walk with an unstarted thread (`ShootdownLoop` covers when).
- The signal handler's own dispatch to client and application, the sa_flags, and the masks that the system's sigaction is given for signals on the avoid list, which nobody filters.
- Signal sets as bit masks; calls of the signal routines from several threads at once (they hold a spinlock, except in the handler calls).
- SignalPrinters.PrintList: what happens after a write past the buffer's size is not modelled.
- Caliper labels and their matching over threads, and the metrics other than counts; failed counter reads.
- Aggregate.MeanBetween: for point 0 only; above it threads that did not use a point are skipped and the minimum starts from zero.
- The square root of the variance, and floating-point rounding.
- RankHandshake: assumes that every rank has removed stale containers when rank 0 publishes; user-specified output files, directory creation and failing file operations are not modelled.
- EventSet.Tool.MakeCompatible: the fixed buffer sizes are not modelled, nor what happens after the null pointer is used.
- Linker and dlsym plumbing, exec and system wrappers, options, report printing, the Perl generators and the compiler hooks: no state worth proving.
