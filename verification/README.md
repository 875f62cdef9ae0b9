# usersim: a verified model of its concurrency protocols, lists, allocator and arithmetic

usersim re-implements Windows kernel services in user mode. This project models the parts of it that
are hard to get right and proves what they promise. `dafny verify dfyconfig.toml` checks everything.

Concurrency is modelled as a state machine: every critical section is one atomic step, every thread
has a program counter and its own pending work, callbacks run between steps, and a run is any
interleaving of steps. History that the code does not keep (which callbacks were made, who took which
lock, what was inserted when) is recorded beside the state, and the main theorems hold in every run.
Further theorems tie the recorded history and the state to the calls and answers of the run.
Objects that the code updates in place are classes; each method is one critical section or one call
and its contract ties the new state to the step function that the runs are made of.

| files | what they model |
|---|---|
| `NmrCore`, `NmrTrace`, `NmrProtocol`, `NmrRegistrar` | the network module registrar: the three maps, the critical sections, the threads, and the registrar object |
| `NmrInvariant`, `NmrLocalSteps`, `NmrBindingSteps`, `NmrRegistrationSteps`, `NmrQuiet` | the registrar's invariant and why each step keeps it |
| `NmrSafety`, `NmrMatching`, `NmrPairs`, `NmrWork`, `NmrProgress` | what holds in every run of the registrar: safety, who gets bound and how often, when a deregistration ends |
| `NmrAnswers`, `NmrGiven` | the registrar acts on what the parties answer and hand in: stated on the calls of a run alone |
| `NmrLimits`, `NmrEarlyCompletion` | runs in which a pair is bound twice, a wait never ends, or `unbind_complete` runs twice |
| `IntrusiveList` | the circular doubly linked lists, on the heap |
| `DpcProtocol`, `DpcTheorems`, `DpcHeap` | the emulated DPC queues: workers, insertion, removal, flush; and the queue object on linked lists |
| `DispatchLock` | IRQL, thread affinity and the per-CPU dispatch locks |
| `Rundown` | rundown protection, and the work-item barrier built on it |
| `FaultLog` | the fault-injection history and its text log |
| `Pool`, `PoolRuns`, `PoolTheorems`, `PoolWitnesses` | the two-layer allocator with headers, alignment and leak table, over byte memory |
| `Mdl`, `Processors` | MDL page arithmetic, and the processor group/index maps |

Where the code and its comments differ, the model follows the code: `bind` is commented as being
called without the lock (`src/nmr_impl.cpp:156`) but `perform_bind` calls it with the lock held.

The following are false of the code as such. Each is shown with a concrete run, an exact condition, or
both:

- A pair can be bound twice: exactly when both registrations were added before either looked at the
  other side (`NmrPairs`).
- A deregistration can wait forever: a binding can be left behind exactly when `begin_unbind` finds its
  attach still in progress, and a wait with nothing else to do ends exactly when none was left behind
  (`NmrProgress`).
- Two completions before the second critical section of `begin_unbind` make `unbind_complete` run twice
  (`NmrEarlyCompletion`).
- A group-affinity change by a thread raised to DISPATCH_LEVEL makes KeLowerIrql release a lock it does
  not hold, exactly when the change lets the thread off its CPU; KeSetSystemAffinityThreadEx at
  DISPATCH_LEVEL is never applied (`DispatchLock`).
- The leak table loses a pointer when a reallocation finds no memory, and a second reallocation asserts
  when the first one changed the size (`PoolRuns`, `PoolWitnesses`).
- The span macro does not count the pages of an empty range, and a partial MDL with no length is right
  only within 2^32 bytes of the end (`Mdl`).
- Group numbers stop being unique in groups of more than 256 processors (`Processors`).

## Model

| member | source | states |
|---|---|---|
| `NmrRegistrar.Registrar.constructor` | src/nmr_impl.h:259-265 | a new registrar has no registrations and no bindings |
| `NmrRegistrar.Registrar.Register` | src/nmr_impl.cpp:270-278 | `add`: a fresh handle and a registration with no bindings; everything else as before |
| `NmrRegistrar.Registrar.Deactivate` | src/nmr_impl.cpp:280-292 | `deactivate`: marks exactly that registration, or reports an invalid handle and changes nothing |
| `NmrRegistrar.Registrar.TryBind` | src/nmr_impl.cpp:157-180 | `bind`: makes a binding exactly for equal non-null NPI ids with neither side deregistering, and takes a reference on both |
| `NmrRegistrar.Registrar.OfferTarget` | src/nmr_impl.cpp:336-351 | one turn of the loop extends what the loop has done so far by that target |
| `NmrRegistrar.Registrar.PerformBind` | src/nmr_impl.cpp:321-352 | the locked loop offers every registration of the other side exactly once, in some order |
| `NmrRegistrar.Registrar.CollectBindings` | src/nmr_impl.cpp:358-389 | the locked loop collects exactly the bindings that refer to the registration, once each |
| `NmrRegistrar.Registrar.TryBeginUnbind` | src/nmr_impl.cpp:224-243 | first critical section of `begin_unbind`: starts exactly when both sides are Ready |
| `NmrRegistrar.Registrar.FinishBeginUnbind` | src/nmr_impl.cpp:245-268 | second critical section: a status that was completed early is kept, the others become pending or complete |
| `NmrRegistrar.Registrar.BindingDetachComplete` | src/nmr_impl.cpp:75-115 | marks the one status, reports whether both are now complete, and whether the assertion on the status fails |
| `NmrRegistrar.Registrar.CompleteUnbind` | src/nmr_impl.cpp:199-222 | `unbind_complete`: which cleanups are called, both references dropped, the binding erased |
| `NmrRegistrar.Registrar.TryRemove` | src/nmr_impl.cpp:294-319 | `remove`: erases the registration only with no bindings left |
| `NmrTrace.LegalIsWellOrdered` | src/nmr_impl.cpp:182-268 | every history the protocol automaton allows has each callback at most once, detaches before completions, and cleanup and erasure only after a failed attach or after both detaches have returned and every pending one completed |
| `NmrSafety.ExecKeeps` | src/nmr_impl.cpp:8-395 | every step of every thread keeps the whole invariant and never uses a binding or registration that is gone |
| `NmrSafety.RunIsSafe` | src/nmr_impl.cpp:8-395 | so does every run, from any interleaving of registrations, deregistrations, attach and detach results and completions |
| `NmrSafety.BindingsAreWellOrdered` | src/nmr_impl.cpp:182-268 | for every binding in every run: ClientAttachProvider, each detach and cleanup callback and `unbind_complete` at most once, in the order above, also when both sides deregister at once |
| `NmrSafety.CountsAreExact` | src/nmr_impl.cpp:173-180 | at every lock release `binding_count` is the number of bindings in the map that refer to the registration, and both registrations of every binding in the map are in their maps |
| `NmrSafety.SynchronousDeregisterNeverWaits` | src/nmr_impl.cpp:18-32 | when `perform_unbind` reported complete, `remove` finds the count at zero |
| `NmrSafety.OneThreadPerBinding` | src/nmr_impl.cpp:353-392 | no two threads are ever at work on one binding |
| `NmrSafety.StatusOnlyMovesForward` | src/nmr_impl.h:141-162 | between any two points of a run each side's status stays or moves towards UnbindComplete |
| `NmrSafety.DeactivatedNeverGains` | src/nmr_impl.cpp:168-171 | after `deactivate` the set of a registration's bindings never grows |
| `NmrSafety.RunExtends` | src/nmr_impl.cpp:8-395 | a later state of a run extends every earlier one: no object or history is rewritten |
| `NmrMatching.RunMatches` | src/nmr_impl.cpp:157-180 | in every run: which registration made each binding, at most one per initiator and target, and matching ids on every binding |
| `NmrMatching.OneOrTwoBindAttempts` | src/nmr_impl.cpp:8-16 | a matching pair that is not deregistering gets at least one bind attempt once both registrations have looked, and no pair ever gets more than two |
| `NmrMatching.BoundPairsMatch` | src/nmr_impl.cpp:163-171 | every binding in the map joins a registered client and provider with the same non-null NPI id |
| `NmrMatching.StayingPairsAreReady` | src/nmr_impl.cpp:41-49 | with no registration in progress, every binding of a matching pair that stays and whose attaches succeeded is Ready, and there is one |
| `NmrPairs.BoundOnceUnlessOverlapping` | src/nmr_impl.cpp:8-16 | once no registration is in progress, a pair that can be bound has been bound twice if at some moment both its registrations were added and neither had looked yet, and once otherwise, whatever the others do |
| `NmrPairs.NonOverlappingPairsAreBoundOnce` | src/nmr_impl.cpp:321-356 | for a staying pair whose attaches succeeded: exactly one binding, Ready, if and only if its registrations did not overlap; otherwise exactly two, both Ready |
| `NmrPairs.OverlapIsAMoment` | src/nmr_impl.cpp:12-14 | what overlapping means, in terms of the states of the run |
| `NmrMatching.BindAllCovers` | src/nmr_impl.cpp:336-351 | the loop makes a binding for every target that can be bound |
| `NmrMatching.BindAllDistinct` | src/nmr_impl.cpp:336-351 | and never two for one target |
| `NmrLimits.OverlappingPairIsBoundTwice` | src/nmr_impl.cpp:12-14 | a run in which one pair is bound twice: both are added before either looks |
| `NmrLimits.LeftBehindWaitsForever` | src/nmr_impl.cpp:228-231 | from a state where a binding became Ready after its deregistering party collected it, in every continuation in which the other party does not deregister, that wait never ends |
| `NmrLimits.ExecLeavesBehind` | src/nmr_impl.cpp:228-231 | every single step keeps such a binding left behind, except the other party's deregistration |
| `NmrLimits.SomeBindingIsLeftBehind` | src/nmr_impl.cpp:228-231 | such a state is reached: the client deregisters during the attach |
| `NmrWork.RunLedger` | src/nmr_impl.cpp:224-268 | in every run a binding inside `begin_unbind` or `unbind_complete` has its thread at work, no thread collects a binding twice, and a deregistering registration is held by a thread or still to be waited for |
| `NmrProgress.CaughtForever` | src/nmr_impl.cpp:390-394 | a Ready binding on a deregistration's list stays on it until its unbind begins, and a begun unbind never goes back |
| `NmrProgress.CleanCollectCatchesAll` | src/nmr_impl.cpp:358-395 | if no collected binding is still attaching, then at every later point each binding the registration still has is on the list or being unbound, and none is left behind |
| `NmrProgress.LeftBehindIffSkipped` | src/nmr_impl.cpp:228-231 | when a deregistration whose other party stays gets to a binding, that binding can ever be left behind if and only if its attach is still in progress |
| `NmrProgress.RemoveEndsIffNoneLeftBehind` | src/nmr_impl.cpp:304-318 | with no thread at work and no detach owed, a thread in `remove` goes on if and only if no binding of its registration has been left behind |
| `NmrProgress.CleanDeregisterEnds` | src/nmr_impl.cpp:294-319 | so a deregistration that collected no attaching binding is not stuck then |
| `NmrProgress.ReadyAreTheMatchingPairs` | src/nmr_impl.cpp:157-180 | with no call in progress, no deregistration to be waited for and no failed attach, the Ready bindings join exactly the registered clients and providers with equal non-null ids, and all bindings in the map are Ready |
| `NmrProgress.NoThreadIsStuck` | src/nmr_impl.cpp:294-319 | in every state of every run every thread has a next step, except one waiting in `remove` for a count that is not zero |
| `NmrAnswers.PendingDetachIsWaitedFor` | src/nmr_impl.cpp:236-267 | if a detach callback for a binding answers pending, then at every later point nothing of the binding has been cleaned up or erased unless that side's completion was called in between |
| `NmrAnswers.CompletionCalledAt` | src/nmr_impl.cpp:75-115 | what that means, with the number of the call |
| `NmrAnswers.AttachAnswerCounts` | src/nmr_impl.cpp:182-196 | either answer of an attach callback is accepted and recorded as given; success makes both statuses Ready at once, failure changes neither |
| `NmrAnswers.DetachAnswerCounts` | src/nmr_impl.cpp:236-243 | either answer of a detach callback is accepted and recorded as given |
| `NmrAnswers.CompletionCounts` | src/nmr_impl.cpp:75-115 | a completion that is owed is accepted from any thread and settles exactly its status |
| `NmrAnswers.CallsAreAccepted` | src/nmr_impl.cpp:8-73 | when registrations, deregistrations and waits go through, and what they start |
| `NmrAnswers.UnknownHandlesAreRefused` | src/nmr_impl.cpp:284-302 | calls with unknown handles change nothing |
| `NmrGiven.RegistrationsAreAsGiven` | src/nmr_impl.cpp:270-278 | in every run the n-th registration call got handle n, and its registration has the side, id and cleanup callback of that call |
| `NmrGiven.DeregisteringIsCalled` | src/nmr_impl.cpp:280-292 | a registration is deregistering exactly when its deregistration has been called |
| `NmrGiven.ContextsAreAsGiven` | src/nmr_impl.cpp:117-153 | in every run a binding has the contexts that the last `client_attach_provider` of its attach handed in, and none before |
| `NmrGiven.CleanupIsExact` | src/nmr_impl.cpp:199-222 | a side's cleanup callback is called for a binding exactly when the binding is erased, the registration call supplied one and a context was handed in |
| `NmrGiven.FailedAttachIsNeverReady` | src/nmr_impl.cpp:188-191 | a binding whose attach failed is Ready at no later point, and is erased by the time no registration is in progress |
| `NmrGiven.PendingIsReported` | src/nmr_impl.cpp:390-394 | a deregistration reports pending exactly when one of its calls of `begin_unbind` found the binding not Ready or got a pending answer |
| `NmrGiven.DeregisterReports` | src/nmr_impl.cpp:18-32 | one whose unbinds all finished synchronously removes its registration without waiting; any other is left to be waited for |
| `NmrEarlyCompletion.EarlyCompletionIsNeverLost` | src/nmr_impl.cpp:245-267 | with the assertions compiled out, when an unbind is over `unbind_complete` has run exactly once if and only if at most one completion came before the second critical section |
| `NmrEarlyCompletion.RaceRuns` | src/nmr_impl.cpp:75-115 | the invariant of that race in every sequence of its steps |
| `NmrEarlyCompletion.BothEarlyErasesTwice` | src/nmr_impl.cpp:245-267 | with two early completions it runs twice: a concrete run, for every binding |
| `IntrusiveList.Initialize` | src/framework.h:42-48 | an empty list |
| `IntrusiveList.IsEmpty` | src/framework.h:50-55 | true exactly for the empty sequence |
| `IntrusiveList.InsertTail` | src/framework.h:57-70 | appends the entry to the sequence; both of its assertions hold |
| `IntrusiveList.RemoveEntry` | src/framework.h:72-88 | removes the entry at its position, leaves it linked to itself, and reports whether the list is now empty |
| `IntrusiveList.RemoveHeadEntry` | src/framework.h:90-101 | takes the first entry, or returns the head of an empty list |
| `IntrusiveList.AppendTailList` | src/framework.h:103-112 | splicing a ring without a head appends its sequence, starting at the entry given |
| `IntrusiveList.InsertTailList` | src/kernel_um.h:78-93 | reports corruption exactly when the tail does not point back; never on a well-formed list, where it appends |
| `IntrusiveList.InsertHeadList` | src/kernel_um.h:95-110 | the same at the other end |
| `IntrusiveList.RemoveEntryList` | src/kernel_um.h:112-128 | never reports corruption on a well-formed list; removes the entry at its position |
| `IntrusiveList.RemoveHeadList` | src/kernel_um.h:138-156 | never reports corruption on a well-formed list; removes the first entry |
| `IntrusiveList.Replay` | src/kernel_um.h:71-167 | every sequence of insertions, removals and splices of headless rings on the linked nodes does what it does on the sequence of entries, with no report of corruption |
| `DpcHeap.EmulatedDpc.constructor` | src/ke.cpp:644-647 | an empty queue, the marker and every DPC linked to themselves |
| `DpcHeap.EmulatedDpc.Insert` | src/ke.cpp:737-751 | queues a DPC at the end with the new arguments if it is not queued, otherwise changes nothing; the step of the protocol on the linked structure |
| `DpcHeap.EmulatedDpc.Remove` | src/ke.cpp:760-770 | takes a queued DPC out wherever it is, otherwise reports false; the step of the protocol |
| `DpcHeap.EmulatedDpc.WorkerTake` | src/ke.cpp:658-671 | takes the first entry, tells the marker from a DPC, and snapshots the arguments with which the protocol runs it |
| `DpcHeap.EmulatedDpc.FlushMark` | src/ke.cpp:719-722 | with no marker queued, puts one at the end |
| `DpcHeap.EmulatedDpc.FlushAnswered` | src/ke.cpp:725-725 | the wait's condition is that the marker has left the queue |
| `DpcHeap.EmulatedDpc.QueuedIffLinked` | src/ke.cpp:742-742 | an entry is linked to itself exactly when its DPC is not queued |
| `DpcHeap.EmulatedDpc.MarkerIffLinked` | src/ke.cpp:660-662 | the flush marker is linked to itself exactly when it is not queued |
| `DpcTheorems.RunKeeps` | src/ke.cpp:652-770 | the invariant of all queues and of every flush in progress, in every run |
| `DpcTheorems.InsertedIsInsertions` | src/ke.cpp:737-751 | the log of insertions is the calls of KeInsertQueueDpc that found their DPC not queued, in order, with the arguments of the calls |
| `DpcTheorems.RemovedIsRemovals` | src/ke.cpp:760-770 | the log of removals is the calls of KeRemoveQueueDpc that found their DPC queued |
| `DpcTheorems.ExecutionsReturn` | src/ke.cpp:673-679 | as many routine calls have returned as have begun, but for the one the worker is in |
| `DpcTheorems.RoutineGetsItsArguments` | src/ke.cpp:664-676 | the routine a worker is in was called with the arguments of the call that inserted it |
| `DpcTheorems.InsertionsAreConserved` | src/ke.cpp:737-770 | for every DPC in every run, calls that inserted it = executions + calls that removed it + one if queued |
| `DpcTheorems.ExecutionsFollowInsertions` | src/ke.cpp:652-683 | executions follow the order of the inserting calls, each with exactly the DPC and arguments of its call, re-insertion while running included |
| `DpcTheorems.FlushIsABarrier` | src/ke.cpp:815-821 | when a thread's KeFlushQueuedDpcs returns, everything inserted on any CPU before its call has been removed or has run to completion, also with other threads flushing, as long as no marker is put into a queue that still holds it |
| `DispatchLock.RunIsSafe` | src/ke.cpp:228-270 | in every run, DPC workers included, each dispatch lock is released by the thread and at the index that took it and is never taken twice by its holder |
| `DispatchLock.OneAtDispatchPerCpu` | src/ke.cpp:673-679 | at most one thread is at DISPATCH_LEVEL on a CPU, so no DPC routine overlaps a thread raised there; a raised thread is pinned to that CPU |
| `DispatchLock.WorkersStayHome` | src/ke.cpp:648-650 | the worker of a CPU in processor group 0 runs there, unless one of its routines changes its group affinity |
| `DispatchLock.WorkersRaiseForRoutines` | src/ke.cpp:675-678 | a worker is at PASSIVE_LEVEL between routines and at DISPATCH_LEVEL or above inside one |
| `DispatchLock.LoweringRestoresAffinity` | src/ke.cpp:228-270 | the round trip in every run: from below DISPATCH_LEVEL, through the raise, any nesting and the lower, with no affinity call of its own in between, a thread has its old affinity again, in the cache and in fact |
| `DispatchLock.IrqlIsTheLastLevel` | src/ke.cpp:230-231 | a thread's IRQL is the last of the levels its raises and lowers leave, so a lower goes back to the level before the matching raise |
| `DispatchLock.AffinityCallTakesEffect` | src/ke.cpp:153-183 | what an affinity call below DISPATCH_LEVEL, and a group-affinity call at any level, does to cache and real affinity |
| `DispatchLock.HarmfulAffinityBreaksLower` | src/ke.cpp:393-403 | the condition on group affinity is exact: at any depth of nested raises, any other change lets the thread move so that undoing its raises releases a lock it does not hold |
| `DispatchLock.HarmfulAffinityIsReached` | src/ke.cpp:393-403 | a run in which that happens |
| `DispatchLock.ThreadLocals.constructor` | src/ke.cpp:24-24 | a thread starts at PASSIVE_LEVEL, free to run anywhere |
| `DispatchLock.ThreadLocals.SetCurrentThreadAffinity` | src/ke.cpp:153-183 | the cached affinity becomes the new one and the old one is returned; nothing else changes if they are equal, an empty mask frees the thread, and nothing changes at all if the system refuses |
| `DispatchLock.ThreadLocals.KfRaiseIrql` | src/ke.cpp:228-247 | which lock is taken, and the thread's variables before it is |
| `DispatchLock.ThreadLocals.KeLowerIrql` | src/ke.cpp:257-270 | which lock is released, and that the affinity saved at the raise is the new one, for any new level |
| `DispatchLock.SystemAffinityIsNotApplied` | src/ke.cpp:364-384 | KeSetSystemAffinityThreadEx at DISPATCH_LEVEL moves nothing and releases nothing, and the lower that follows does not apply it either: afterwards cache and real affinity agree exactly if the thread's CPU is what was asked for |
| `Rundown.RundownRefTable.InitializeRundownRef` | cxplat/src/cxplat_winuser/rundown_winuser.cpp:44-55 | a count of zero, not run down, other contexts as before |
| `Rundown.RundownRefTable.ReinitializeRundownRef` | cxplat/src/cxplat_winuser/rundown_winuser.cpp:62-84 | clears the flag, only after a finished rundown; otherwise the error and no change |
| `Rundown.RundownRefTable.AcquireRundownRef` | cxplat/src/cxplat_winuser/rundown_winuser.cpp:93-112 | adds a reference exactly when no rundown has begun |
| `Rundown.RundownRefTable.ReleaseRundownRef` | cxplat/src/cxplat_winuser/rundown_winuser.cpp:119-138 | drops a reference and says when the last one is gone; errors change nothing |
| `Rundown.RundownRefTable.BeginWaitForRundownRef` | cxplat/src/cxplat_winuser/rundown_winuser.cpp:145-156 | marks the rundown and says whether the wait is over at once |
| `Rundown.RunKeeps` | cxplat/src/cxplat_winuser/rundown_winuser.cpp:44-159 | the invariant of all contexts and waiters, in every run |
| `Rundown.CountIsHolders` | cxplat/src/cxplat_winuser/rundown_winuser.cpp:44-159 | in every run the count is the acquires minus the releases since initialization, and when a wait returns no holder remains, and it is run down unless it was re-initialized before the waiter woke |
| `Rundown.CountIsHeld` | cxplat/src/cxplat_winuser/rundown_winuser.cpp:44-138 | in every run the count is the number of references taken and not given back since the context was last opened, as the calls tell it |
| `Rundown.AcquireSucceedsWhileOpen` | cxplat/src/cxplat_winuser/rundown_winuser.cpp:93-112 | an acquire succeeds exactly when no wait on the context has begun since it was last initialized, or re-initialized after a finished rundown |
| `Rundown.OpeningStartsAfresh` | cxplat/src/cxplat_winuser/rundown_winuser.cpp:62-84 | initialization and a re-initialization that does not throw leave no holder, and the next acquire gets the first reference |
| `Rundown.CallsThrowExactly` | cxplat/src/cxplat_winuser/rundown_winuser.cpp:62-153 | exactly when each call throws, and which error |
| `Rundown.RunDownNeverGrows` | cxplat/src/cxplat_winuser/rundown_winuser.cpp:44-159 | from the start of a rundown until re-initialization the count never grows and every acquire fails |
| `Rundown.OtherContextsUntouched` | cxplat/src/cxplat_winuser/rundown_winuser.cpp:44-159 | contexts do not interfere |
| `WorkItems.RunKeeps` | cxplat/src/cxplat_winuser/workitem_winuser.cpp:23-34 | the reference's count is the calls between taking the reference and releasing it: referenced, submitted, running and returned, in every run |
| `WorkItems.WaitMeansAllDone` | cxplat/src/cxplat_winuser/workitem_winuser.cpp:139-147 | the wait can return exactly when one has begun and every reference is back; then as many routine calls have ended as queue calls were made, counted on the run's calls, for any number of items and re-queues |
| `WorkItems.RundownIsWaiting` | cxplat/src/cxplat_winuser/workitem_winuser.cpp:139-147 | the reference is run down exactly when a wait has begun |
| `WorkItems.AssertsIffQueuedLate` | cxplat/src/cxplat_winuser/workitem_winuser.cpp:71-78 | a run hits the runtime assertion if and only if an item is queued after a wait has begun |
| `FaultText.HexRoundTrip` | cxplat/src/cxplat_winuser/fault_injection.cpp:276-278 | the hexadecimal digits printed for a number have its value |
| `FaultText.ParseHexRoundTrip` | cxplat/src/cxplat_winuser/fault_injection.cpp:335-337 | reading back a printed word gives the word |
| `FaultText.StackLineRoundTrip` | cxplat/src/cxplat_winuser/fault_injection.cpp:332-338 | reading back the printed line of any stack gives the stack |
| `FaultText.PiecesConcat` | cxplat/src/cxplat_winuser/fault_injection.cpp:321-321 | whole lines can be read separately from what follows them |
| `FaultText.OneLinePerFrame` | cxplat/src/cxplat_winuser/fault_injection.cpp:283-304 | a record has one line for each captured frame before the first null one, in order |
| `FaultText.FrameLineReads` | cxplat/src/cxplat_winuser/fault_injection.cpp:292-300 | a decoded frame's line shows its address, which reads back, and its symbol |
| `FaultText.RecordLoads` | cxplat/src/cxplat_winuser/fault_injection.cpp:270-313 | a record loads as its stack and, through the blank line that ends it, the empty stack, whatever frames and symbols it lists |
| `FaultText.IterationLoads` | cxplat/src/cxplat_winuser/fault_injection.cpp:346-347 | an iteration line counts once and adds no stack |
| `FaultInjection.FaultInjector.LoadFaultLog` | cxplat/src/cxplat_winuser/fault_injection.cpp:315-348 | the two reading loops compute what the text means, or throw exactly when a piece is not a number |
| `FaultInjection.FaultInjector.ParseLine` | cxplat/src/cxplat_winuser/fault_injection.cpp:332-338 | the inner loop, including its exception |
| `FaultInjection.FaultInjector.IsNewStack` | cxplat/src/cxplat_winuser/fault_injection.cpp:256-267 | fails a path exactly when it is not known, and then records it in the set and in the log |
| `FaultInjection.FaultInjector.ResetFaults` | cxplat/src/cxplat_winuser/fault_injection.cpp:215-227 | clears set, iteration and log |
| `FaultInjection.RunKeeps` | cxplat/src/cxplat_winuser/fault_injection.cpp:215-348 | in every run of injections, restarts and resets the set and the log agree |
| `FaultInjection.FailedOncePerReset` | cxplat/src/cxplat_winuser/fault_injection.cpp:229-268 | a non-empty stack is failed exactly the first time it is tried since the last reset, across restarts; the empty stack also not once a record has been read back |
| `FaultInjection.IterationCountsStarts` | cxplat/src/cxplat_winuser/fault_injection.cpp:346-347 | the iteration number is the number of starts since the log was cleared |
| `FaultText.DecimalRoundTrip` | cxplat/src/cxplat_winuser/fault_injection.cpp:346-347 | the decimal digits printed for a number have its value |
| `FaultInjection.RestartRestores` | cxplat/src/cxplat_winuser/fault_injection.cpp:315-348 | a restart never fails to read its own log and rebuilds exactly the recorded stacks, plus the empty one if there is any record |
| `PoolHeap.Allocator.constructor` | cxplat/src/cxplat_winuser/leak_detector.h:32-42 | no blocks and an empty leak table |
| `PoolHeap.Allocator.CxplatAllocate` | cxplat/src/cxplat_winuser/memory_winuser.cpp:80-136 | block, offset, fill, header and leak entry of an allocation, and its refusals |
| `PoolHeap.Allocator.CxplatReallocate` | cxplat/src/cxplat_winuser/memory_winuser.cpp:138-194 | the checks, the move, the fill of the new part and the leak table, also when there is no memory |
| `PoolHeap.Allocator.CrtReallocate` | cxplat/src/cxplat_winuser/memory_winuser.cpp:158-168 | the move of the block's contents |
| `PoolHeap.Allocator.CxplatFree` | cxplat/src/cxplat_winuser/memory_winuser.cpp:196-219 | the checks, the leak table, and which block goes back to which function |
| `PoolHeap.Allocator.ExAllocatePoolUninitialized` | src/ex.cpp:185-199 | bug checks, and the second header in front of the bytes returned |
| `PoolHeap.Allocator.ExAllocatePool2` | src/ex.cpp:208-223 | the same from explicit flags, with the check of the IRQL |
| `PoolHeap.Allocator.ExFreePoolWithTag` | src/ex.cpp:261-269 | frees through the flags found in the second header |
| `PoolMemory.WordRoundTrip` | cxplat/src/cxplat_winuser/memory_winuser.cpp:30-39 | a header field reads back as it was written, byte by byte |
| `PoolRuns.ServeReaches` | src/ex.cpp:161-230 | whatever the entry point, a well-formed request asserts exactly when it asks for paged memory at DISPATCH_LEVEL, and otherwise reaches the lower layer with its flags, size and tag |
| `PoolRuns.ReachResult` | src/ex.cpp:185-199 | the two layers together: one block, both headers, the filled bytes, one leak entry; nothing when refused |
| `PoolRuns.FreeResult` | cxplat/src/cxplat_winuser/memory_winuser.cpp:196-219 | freeing a live pointer asserts exactly when flags or tag disagree or a failed reallocation dropped it; otherwise its own base goes to the matching function |
| `PoolRuns.ReallocatingResult` | cxplat/src/cxplat_winuser/memory_winuser.cpp:138-194 | reallocating asserts exactly when flags or tag disagree, an earlier reallocation changed the size that the header still records, or one failed |
| `PoolRuns.RunKeeps` | cxplat/src/cxplat_winuser/memory_winuser.cpp:56-219 | in every run the heap is what a table of separate buffers says: contents, headers, blocks and leak table |
| `PoolTheorems.OwnersAreIsolated` | src/ex.cpp:151-269 | live user ranges do not meet and each holds exactly what its owner put there, through other owners' allocations, frees, reallocations and writes |
| `PoolTheorems.NewMemoryIsFilled` | cxplat/src/cxplat_winuser/memory_winuser.cpp:114-122 | after a request through any of the four entry points every byte the caller gets is 0 if it asked for initialized memory and 0xcc if not |
| `PoolTheorems.ReallocationKeepsBytes` | cxplat/src/cxplat_winuser/memory_winuser.cpp:176-184 | a reallocation keeps the bytes up to the smaller size, and the rest is 0 or 0xcc likewise |
| `PoolTheorems.AlignedIsAligned` | cxplat/src/cxplat_winuser/memory_winuser.cpp:96-106 | cache-aligned requests get addresses divisible by 64, through one layer or both |
| `PoolTheorems.BlocksAreThoseOfTheLive` | cxplat/src/cxplat_winuser/memory_winuser.cpp:56-219 | the C runtime's blocks are exactly those of the live allocations |
| `PoolTheorems.PoolFreeGivesBack` | src/ex.cpp:245-269 | a pool free returns the original base to the matching C runtime function through both headers |
| `PoolTheorems.NeverCorrupts` | cxplat/src/cxplat_winuser/memory_winuser.cpp:196-219 | no call of any run gives the C runtime a foreign address or the wrong kind of block |
| `PoolTheorems.LeakTableIsExact` | cxplat/src/cxplat_winuser/leak_detector.cpp:10-87 | the leak table is exactly the live lower-layer pointers with their sizes if and only if no reallocation has found no memory; otherwise exactly those are missing |
| `PoolWitnesses.FailedReallocationLosesBlock` | cxplat/src/cxplat_winuser/memory_winuser.cpp:170-175 | a run after which a live block is missing from the leak table and its owner's free asserts |
| `PoolWitnesses.SecondReallocationAsserts` | cxplat/src/cxplat_winuser/memory_winuser.cpp:151-156 | a run after which a reallocation with the true size asserts |
| `PoolTheorems.NothingLostWithoutReallocation` | cxplat/src/cxplat_winuser/leak_detector.cpp:58-87 | without reallocations nothing is ever missing |
| `PoolTheorems.BlockHoldsRequest` | src/ex.cpp:185-199 | the block holds both headers and the bytes asked for exactly when their unchecked sum stays below 2^64 |
| `PoolTheorems.PoolTypesAreFaithful` | src/ex.cpp:161-183 | the flags chosen for a pool type are aligned, paged and initialized as its name says |
| `MemoryDescriptors.Mdl.constructor` | inc/usersim/mm.h:52-61 | the fields that MmInitializeMdl assigns |
| `MemoryDescriptors.Mdl.GetVirtualAddress` | inc/usersim/mm.h:65-65 | gives back the address that the list was initialized for, or that a partial list was built for |
| `MemoryDescriptors.IoAllocateMdl` | src/io.cpp:33-58 | null without memory, otherwise a new descriptor of the range |
| `MemoryDescriptors.IoBuildPartialMdl` | src/io.cpp:125-151 | the target's fields from the source's old ones, also when both are one object |
| `MemoryDescriptors.SpanCountsPagesTouched` | src/io.cpp:15-18 | for every address the span macro counts exactly the pages touched if and only if the length is not zero |
| `MemoryDescriptors.InitializedDescribes` | inc/usersim/mm.h:52-65 | address and length read back; the 16-bit size is right exactly up to 16373 pages |
| `MemoryDescriptors.PartialDescribes` | src/io.cpp:133-147 | for every address and length, what a partial MDL describes despite the truncated offset, and exactly when its end is the source's |
| `MemoryDescriptors.PartialInside` | src/io.cpp:133-147 | for an address inside the source, exactly the requested or the remaining bytes |
| `MemoryDescriptors.PartialOfPartial` | src/io.cpp:125-151 | exactly when a partial of a partial is the direct partial |
| `MemoryDescriptors.RemainderOfBuffer` | src/io.cpp:125-151 | for a buffer's own MDL and any offset in it, no length means the rest of the buffer |
| `Processors.ProcessorMap.constructor` | src/platform_user.cpp:78-84 | the loop computes the prefix sums of the group sizes |
| `Processors.ProcessorMap.IndexFromNumber` | src/platform_user.cpp:389-394 | the index lies in that group, below the total |
| `Processors.ProcessorMap.NumberFromIndex` | src/platform_user.cpp:396-418 | fails exactly at or above the total; otherwise finds the one group that holds the index, empty groups included |
| `Processors.OneGroupHolds` | src/platform_user.cpp:403-412 | at most one group holds an index |
| `Processors.SomeGroupHolds` | src/platform_user.cpp:396-418 | the indices below the total are exactly those that some group holds |
| `Processors.IndexReturns` | src/platform_user.cpp:389-418 | index to number and back is the identity exactly for the first 256 of a group |
| `Processors.Bijection` | src/platform_user.cpp:389-418 | index to number is one-to-one if and only if no group has more than 256 processors, and then both maps are inverse bijections |

## Left out

- `src/fwp_um.cpp`, `src/ndis_um.cpp`, `src/wdf.cpp`, `src/se.cpp`, `src/zw.cpp`, `src/ps.cpp`, `src/etw.cpp`: mostly field copying, mocks and wrappers over Win32 calls.
- Trace logging, symbol decoding, stack capture, environment variables and file handles: the canonical stack, the captured frames and the decoded symbols are inputs; a decoded symbol is taken to hold no line break.
- Thread priorities: KfRaiseIrql sets the current IRQL before the helper that compares against it, so nothing is claimed about them.
- Timers, semaphores and wait timeouts: they rest on operating-system objects and clocks.
- The registrar's ten-second timeout assertion in `remove`: the wait is a step that is enabled when the count is zero.
- Reuse of a binding's address after it is freed, and wrap-around of 64-bit handles and counts: identities are never reused and counts are unbounded.
- ProviderAttachClient as an event of its own: a client may call `client_attach_provider` any number of times during its attach, and each such call is one step that sets the contexts.
- Completion calls outside the UnbindPending state in the full registrar: there they are not taken as steps; `NmrEarlyCompletion` treats one binding with the assertions compiled out.
- A flush that marks a queue while another flush's marker is still in it, which would link one entry twice; termination of a queue; a change of a DPC's target CPU while it is queued.
- DispatchLock.RunIsSafe: raises and lowers are well nested, and a thread that has raised itself to DISPATCH_LEVEL changes its group affinity only so that it stays where it is; DispatchLock.HarmfulAffinityBreaksLower shows that limit to be exact.
- Failure of SetThreadGroupAffinity in the runs, and who owns the reader/writer lock inside a spin lock: only the dispatch lock's part of a spin lock is modelled.
- Initializing a rundown context while a thread waits on it, which erases the entry the waiter refers to; re-initializing it then is modelled.
- A work-item wait before the thread pool exists, and the thread pool's own scheduling: submitted callbacks run in any order.
- `std::stoull` on signs, blanks and an 0x prefix: the log never holds them, and the model treats them as not a number.
- `find_base_address`, and stack depths above 16: the canonical stack is an input.
- Recursion of fault injection into itself: the thread-local guard is not modelled; an injected fault is an input of the allocator.
- The gap between adding a stack to the set and writing its record: the run of the fault injector is sequential.
- The release build of the allocator, without the first header and the leak table; alignment of `malloc` itself.
- Calls into the allocator from several threads: its steps are whole calls.
- PoolRuns.RunKeeps: sizes leave room for the headers below 2^64; PoolTheorems.BlockHoldsRequest gives the exact limit.
- Freed-allocation records, stack hashes and the output of the leak detector.
- `cxplat_safe_*`, `Rtl*` safe arithmetic and `cxplat_winkernel`: wrappers over code that is not shown.
