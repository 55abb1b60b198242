# BiKaya kernel model

BiKaya is a small single-CPU kernel. Its process control blocks (PCBs) and semaphore
descriptors come from two fixed tables and are threaded through circular doubly linked
lists; every system call, exception and interrupt is handled in one go with interrupts
disabled. This project models that kernel at two levels and proves what every run keeps.

* **Pointer level.** `ListX.Links` is `listx.h`: `next` and `prev` fields that the list
  macros rewrite one at a time. `Kernel.Kernel` holds three such memories (`p_next`,
  `p_sib`, `s_next`), the two tables and the scheduler's globals, and has one method per
  routine of `pcb.c`, `asl.c`, `scheduler.c`, `syscalls.c` and `interrupts.c`, with the
  loops of the original. One kernel entry is the method `Enter`, one boot is `Start`.
* **Value level.** `KernelState.State` holds the sequence of every list. Each method above
  is proved to compute a function on `State` (`KernelState`, `KernelSteps`); `Enter` computes
  `Step`, so whatever is proved about runs of `Step` holds of the pointer program.

On the value level, for every number of PCBs and every run of enabled steps:

* the PCBs are partitioned among free list, ready queue, semaphore queues and
  `current_proc`; descriptors are active exactly when they have waiters; the process tree
  is a forest; queues are in service order (`Invariants`, `KernelRuns`);
* `kill_tree` removes exactly a subtree (`ProcessTree`, `Termination`), and
  `asl_find_and_remove_blocked_child` exactly the part of it reached through blocked
  processes (`BlockedSubtrees`);
* every system call does exactly what it should as one step, down to the value it answers and
  what it leaves alone (`Calls`); an area registered with SPECPASSUP is the one an exception is
  passed up to, over any run its process survives (`Registrations`);
* semaphore words satisfy conservation, and a semaphore started at 1 is a mutex, with V's,
  completed P's and holders read off the events of the run (`Semaphores`);
* a ready process has its original priority plus the slice expiries since it was queued, and
  waits for a bounded number of these (`Waiting`, `Arrivals`), though not for a bounded number
  of dispatches (`Starvation`);
* what is loaded when a process runs again is the state it last entered the kernel with, up to
  the status of the completion it waited for (`Contexts`, `RoundTrips`); a V wakes the first
  waiter, and the completions of one interrupt wake the waiters of each device from the front
  of its queue, one each (`Wakeups`); which completions these are is told from bitmaps and
  registers (`Completions`);
* charged times never exceed true times although the clock readings wrap (`Timekeeping`), and
  over a step that its process survives they are exact (`Charges`).

`Division` and `Numerals` treat the shift-subtract division of the uARM target and
`convert` on top of it; `Devices` the device-to-semaphore index.

A run is *enabled* (`KernelSteps.Enabled`) if system calls and traps come from a running
process, pids name PCBs of the table, exception kinds are 0 to 2, a device completion finds
a process waiting for it, and nobody terminates his own proper ancestor. The last condition
is exact: `KernelRuns.StepInvIff` proves that it is the only way for a step to break the
invariant, and `Counterexamples.AncestorKillReachable` gives a run of three steps that does.
The refinement itself needs no such condition: `Enter` computes `Step` for that call too.
`Counterexamples.ForkThenSlice` and `Starvation.SetUp` prove of concrete runs from boot that
they are enabled.

`State.ledger` holds observations that no kernel code reads: insertion stamps, a rank that
drops from parent to child, and unwrapped times. In `Kernel.Kernel` it is a ghost field. The specification of the tree walk (`Post`) uses the rank
as a guard to be total; wherever the forest invariant holds the guard is always true, and
`ProcessTree.PostIsDescendants` describes the walk without it.

Where code and documentation disagree the model follows the code: `include/asl.h:84-90`
says that `asl_find_and_remove_blocked_child` removes the PCB and all its children, while
the code stops at the first unblocked process (`BlockedSubtrees.DocumentedIff` gives the
exact condition); `src/scheduler.c:69-70` says aging avoids starvation, which holds per
slice expiry only; a pending printer line reads the Ethernet devices
(`src/interrupts.c:92-93`), so that no interrupt ever wakes a process waiting for a printer
(`Wakeups.PrinterWaitsOn`).

## Model

| member | source | states |
|---|---|---|
| ListX.Links.InitHead | include/listx.h:89-92 | a sentinel heads the empty list; every other list is unchanged and circular |
| ListX.Links.AddBetween | include/listx.h:101-109 | four field writes insert the element at exactly that position of that list; all rings stay circular with `next` and `prev` inverse, all other lists unchanged |
| ListX.Links.Add | include/listx.h:118-120 | insertion right after a node, at the front for the sentinel |
| ListX.Links.AddTail | include/listx.h:130-132 | insertion right before a node, at the tail for the sentinel |
| ListX.Links.Del | include/listx.h:142-156 | exactly the linked element leaves its list; its own two link fields keep their values |
| ListX.Links.Empty | include/listx.h:178-180 | true exactly for the empty sequence |
| ListX.Links.Next | include/listx.h:250-253 | one step of the iteration macro reaches the next element, and the sentinel after the last |
| ListX.SpliceIn | include/listx.h:101-109 | the four writes turn a ring for a sequence into a ring for the sequence with the element inserted |
| ListX.SpliceOut | include/listx.h:142-156 | the two writes turn a ring into a ring without the element |
| Kernel.Kernel.PcbInit | src/pcb.c:11-16 | after the loop the free list holds the whole table, last entry first |
| Kernel.Kernel.PcbRelease | src/pcb.c:18-20 | the PCB heads the free list and nothing else changes |
| Kernel.Kernel.PcbAlloc | src/pcb.c:22-50 | none from an empty free list; otherwise its first PCB, cleared, with an empty child list and its own sibling links reset |
| Kernel.Kernel.PcbInsertInQueue | src/pcb.c:61-77 | the search loop inserts before the first process of lower priority |
| Kernel.Kernel.PcbQueueHead | src/pcb.c:79-84 | the first of the queue or none |
| Kernel.Kernel.PcbRemoveFromQueue | src/pcb.c:86-93 | exactly the first process leaves |
| Kernel.Kernel.PcbIsFree | src/pcb.c:95-102 | true exactly for a PCB on the free list |
| Kernel.Kernel.PcbFindAndRemove | src/pcb.c:104-115 | the process leaves the queue if and only if it was on it |
| Kernel.Kernel.PcbInsertChild | src/pcb.c:122-125 | last child of its parent, with the parent field set |
| Kernel.Kernel.PcbRemoveChild | src/pcb.c:127-141 | the first child leaves, orphaned |
| Kernel.Kernel.PcbFindAndRemoveChild | src/pcb.c:143-150 | the process leaves its parent's list and keeps its own `p_sib` value |
| Kernel.Kernel.InitTables | src/main.c:22-24 | both tables initialised, as `Tables` says |
| Kernel.Kernel.AslInit | src/asl.c:19-26 | all descriptors in the pool with empty queues |
| Kernel.Kernel.AslLookup | src/asl.c:10-17 | the search loop finds the first active descriptor with the key |
| Kernel.Kernel.AslInsertBlocked | src/asl.c:28-45 | joins or opens the queue of the key; fails exactly for an inactive key with an empty pool |
| Kernel.Kernel.AslRemoveBlocked | src/asl.c:47-63 | the first waiter leaves with its key cleared; an emptied descriptor returns to the pool |
| Kernel.Kernel.AslFindAndRemoveBlocked | src/asl.c:65-91 | the process leaves the queue its key names; an emptied descriptor returns to the pool; the key field stays; the result says exactly whether it was there |
| Kernel.Kernel.AslBlockedHead | src/asl.c:93-98 | the first waiter of the key or none |
| Kernel.Kernel.AslFindAndRemoveBlockedChild | src/asl.c:100-110 | the recursion over the live child lists removes the blocked walk of the tree, in order |
| ActiveSemaphores.AslSemdIsLookup | src/asl.c:10-17 | `asl_semd` is exactly lookup in the map from active keys to descriptors, and finds nothing for NULL |
| ActiveSemaphores.SemKeyIsQueue | src/asl.c:28-63 | a live process has a key in `p_semkey` if and only if it is among the waiters of that key |
| ActiveSemaphores.DescriptorAvailable | src/scheduler.c:117-122 | active descriptors are at most the PCBs on lists, so with a running process the pool is not empty |
| ActiveSemaphores.InsertBlockedInv | src/asl.c:28-45 | with a process on no list, insertion never fails and keeps the invariant |
| ActiveSemaphores.RemoveBlockedInv | src/asl.c:47-63 | exactly the first waiter leaves its queue, and the invariant is kept |
| BlockedSubtrees.WalkIsChain | src/asl.c:100-110 | the recursion visits exactly the descendants all of whose ancestors up to the root, and themselves, are blocked |
| BlockedSubtrees.BlockedChildTheorem | src/asl.c:65-110 | exactly those leave their queues, the others keep their order, no PCB field changes, the pool is exactly the descriptors left without waiters; an unblocked root changes nothing |
| BlockedSubtrees.DocumentedIff | include/asl.h:84-90 | every blocked descendant is removed if and only if none of them has an unblocked parent |
| Counterexamples.GapKeepsGrandchild | src/asl.c:100-110 | a well-formed kernel in which a blocked grandchild stays queued |
| Kernel.Kernel.AccountTimeTo | src/scheduler.c:45-58 | the running process is charged the wrapped 32-bit difference and the switch tick is reset |
| Kernel.Kernel.AgeReady | src/scheduler.c:38-43 | the loop adds one to every ready process and to nobody else |
| Kernel.Kernel.Enqueue | src/scheduler.c:108-115 | priority reset to the original one, then priority insertion |
| Kernel.Kernel.RunNext | src/scheduler.c:89-105 | the first ready process becomes current, first activation and switch tick recorded, its saved state loaded |
| Kernel.Kernel.ResumeScheduler | src/scheduler.c:60-87 | resume, preempt with aging, dispatch or idle |
| Kernel.Kernel.BlockCurrentOn | src/scheduler.c:117-122 | state saved, time charged, process queued under the key, no current process |
| Kernel.Kernel.KillTreeAt | src/scheduler.c:124-139 | recursion and child loop compute the post-order removal of the subtree; a killed process keeps the sibling link its parent's loop still reads |
| Kernel.Kernel.KillChildren | src/scheduler.c:125-128 | the loop over a list from which every body unlinks and frees its node visits each original child once, in order, and ends |
| Kernel.Kernel.KillProcessAt | src/scheduler.c:141-146 | as `KillTreeAt`, with `current_proc` cleared exactly when it is the target |
| Kernel.Kernel.PassUpOrDie | src/scheduler.c:151-162 | pass up to the registered area, or kill the process and dispatch |
| Kernel.Kernel.CreateProcessWith | src/syscalls.c:20-34 | failure exactly without a free PCB; otherwise a ready child with the given state and priority, whose pid is returned |
| Kernel.Kernel.TerminateProcessOf | src/syscalls.c:36-48 | failure exactly for a free PCB; NULL means the caller |
| Kernel.Kernel.VerhogenOn | src/syscalls.c:50-61 | the first waiter becomes ready, or the word grows by one |
| Kernel.Kernel.PasserenOn | src/syscalls.c:63-69 | the word drops by one, or the caller blocks |
| Kernel.Kernel.SpecPassUpFor | src/syscalls.c:91-101 | registers the areas, or kills the caller on a second registration |
| Kernel.Kernel.HandleSyscall | src/syscalls.c:103-187 | the whole system-call step |
| Kernel.Kernel.UnblockProcess | src/interrupts.c:19-23 | the first waiter becomes ready with the status in its return register |
| Kernel.Kernel.HandleTerm | src/interrupts.c:31-43 | both sides of a terminal are completed independently |
| Kernel.Kernel.HandleLine | src/interrupts.c:45-63 | the bitmap-shifting loop completes exactly the devices whose bit is set, in order |
| Kernel.Kernel.HandleInterrupt | src/interrupts.c:65-103 | the whole interrupt step |
| Kernel.Kernel.Enter | src/syscalls.c:103-187 | from any state that satisfies the invariant, every possible entry of the pointer-level kernel computes `Step`, keeps all lists well formed, and keeps the invariant if and only if it does not terminate a proper ancestor of the caller |
| Kernel.Kernel.Start | src/main.c:22-30 | the pointer-level boot computes `Boot` |
| Kernel.Kernel.Execute | src/main.c:13-33 | boot and any enabled sequence of entries compute `RunSteps`, so every result about runs holds of the pointer program |
| Termination.FinishAllInv | src/scheduler.c:124-139 | finishing a list of processes, children first, removes exactly them and keeps the invariant |
| ProcessTree.PostIsDescendants | src/scheduler.c:124-128 | the walk of `kill_tree` visits a process if and only if its chain of parents reaches the root |
| ProcessTree.PostNoDup | src/scheduler.c:124-128 | nobody is visited twice |
| ProcessTree.Acyclic | src/pcb.c:122-125 | no process is its own ancestor |
| ProcessTree.KillLoop | include/listx.h:250-253 | when the loop reaches the i-th child, the earlier subtrees are gone and the child list is exactly the rest |
| ProcessTree.KillLoopChild | src/scheduler.c:124-128 | the i-th child is still live, its subtree untouched and of smaller rank, and killing it gives the state before the next round |
| ProcessTree.KillTreeTheorem | src/scheduler.c:124-139 | exactly the process and its descendants are freed and leave parents, ready queue and semaphore queues; all others keep their order and fields; the pool is exactly the descriptors left without waiters |
| KernelRuns.KillProcessInv | src/scheduler.c:141-146 | killing anybody but a proper ancestor of the caller keeps the invariant |
| KernelRuns.StepInv | src/syscalls.c:103-187 | every enabled step keeps partition, descriptors, forest, order and work conservation |
| KernelRuns.StepInvIff | src/scheduler.c:141-146 | a possible step keeps the invariant if and only if it does not terminate a proper ancestor of the caller |
| KernelRuns.AncestorKillDangles | src/scheduler.c:141-146 | terminating a proper ancestor frees the caller and leaves it current |
| Counterexamples.AncestorKillReachable | src/scheduler.c:141-146 | a run from boot in which terminating the parent leaves `current_proc` on the free list |
| KernelRuns.RunStepsInv | src/scheduler.c:60-146 | every enabled run keeps the invariant |
| KernelRuns.BootInv | src/main.c:22-30 | the booted kernel satisfies the invariant |
| KernelRuns.ReachableInv | src/main.c:22-30 | so does every state reached from boot |
| KernelRuns.Partition | src/pcb.c:18-50 | every PCB is in exactly one of free list, ready queue, semaphore queues and `current_proc`, once |
| KernelRuns.DispatchTakesBest | src/scheduler.c:89-105 | the dispatched process has the highest priority, and was queued first among equals |
| Invariants.OrderedInsert | src/pcb.c:61-77 | priority insertion keeps a queue sorted by priority and first-in first-out among equals |
| Invariants.AgingInv | src/scheduler.c:38-43 | aging the whole ready queue keeps the invariant, order included |
| Semaphores.StepMoves | src/syscalls.c:50-69 | every step, kills of blocked processes included, changes a word by exactly its V and its completed P, and leaves it 0 while somebody waits |
| Semaphores.Conservation | src/syscalls.c:50-69 | over every run the word is what it was plus the V events minus the P events that complete, and 0 while somebody waits |
| Semaphores.ConservationFromBoot | src/scheduler.c:117-122 | the same from boot, with the word never negative |
| Semaphores.StepHolders | src/syscalls.c:50-69 | tokens in the word plus holders never exceed n, where a holder has completed a P, not yet done its V, and lives |
| Semaphores.AtMostN | src/syscalls.c:50-69 | so over every run in which only holders do V |
| Semaphores.MutualExclusion | src/syscalls.c:50-69 | in any such run from boot with the word at 1, two holders are one process and the word is 0 |
| Waiting.StepWaits | src/scheduler.c:60-115 | while a process stays ready a step adds one to its priority exactly at a slice expiry; once at the top nobody passes it and every dispatch brings it forward |
| Waiting.BoundedWaiting | src/scheduler.c:60-115 | priority = start + expiries; at the top at most as many dispatches as processes ahead; in all at most max(0, top - priority) + N - 1 expiries |
| Arrivals.StepArrives | src/scheduler.c:108-115 | whoever a step puts on the ready queue is there at its original priority, plus one exactly if the step ends the slice of another process |
| Arrivals.WaitFromArrival | src/scheduler.c:38-43 | from the step that queues a process until it runs: priority = original + expiries since, and at most max(0, top - original) + N - 1 expiries |
| Starvation.Starved | src/scheduler.c:60-72 | two processes that block before their slices end make any number of dispatches while a third stays ready |
| Starvation.DispatchesUnbounded | src/scheduler.c:66-72 | such a situation is reachable from boot with three PCBs and priorities at most 2 |
| Contexts.StepCarries | src/interrupts.c:19-23 | a live process that is not running keeps its saved state through any step, up to the status a completion reports |
| Contexts.StepSaves | src/scheduler.c:74-77 | a process that blocks or is preempted is saved with the state it entered the kernel with |
| RoundTrips.ParksIff | src/scheduler.c:60-122 | a step takes the processor from its process alive if and only if it is a blocking call or the end of its slice |
| RoundTrips.ReturnsOrKills | src/scheduler.c:60-67 | any other step without an exception returns to its process or kills it |
| Contexts.StepLoads | src/scheduler.c:89-105 | a dispatch loads the saved state of the process that becomes current |
| Contexts.StepResumes | src/scheduler.c:60-67 | a step that returns to its program loads the state it was entered with; only calls that answer change it, in the return register |
| Contexts.StepPassesUp | src/scheduler.c:151-162 | an exception goes to the registered handler with the entry state in the old area; without one exactly the process and its descendants are freed |
| Wakeups.UnblockAllWakes | src/interrupts.c:19-43 | of several awaited completions each wakes, with its own status, the waiter as far back in its queue as there are earlier completions for the same device |
| Wakeups.AllDistinct | src/interrupts.c:83-96 | unless Ethernet and printer are both pending, one interrupt signals no semaphore twice |
| Wakeups.InterruptWakes | src/interrupts.c:65-103 | after every enabled interrupt, Ethernet and printer both pending included, the process each completion is for is ready or running, its saved state changed only by the status |
| Wakeups.OncePerDevice | src/interrupts.c:83-96 | unless Ethernet and printer are both pending that process is the first waiter |
| Wakeups.NoPrinterDone | src/interrupts.c:92-93 | no interrupt signals the semaphore of a printer |
| Wakeups.PrinterWaitsOn | src/interrupts.c:92-93 | the waiters of a printer are the same before and after any interrupt |
| Wakeups.VerhogenWakes | src/syscalls.c:50-58 | a V wakes the best waiter at its original priority, leaves the rest of the queue and the word as they were |
| Wakeups.InterruptWaiters | src/interrupts.c:65-103 | after an interrupt the waiters of every key are those before it, less one from the front per completion |
| Completions.DoneExactly | src/interrupts.c:25-63 | an interrupt handles exactly: the status of each disk, tape and network device with its bit set (network also for a pending printer line) on rows 0 to 2, each finished transmission on row 4, each finished reception on row 5 |
| Completions.ReportWakes | src/interrupts.c:19-43 | each of these reaches a process waiting on that row and column, with that status |
| Calls.PassiveStep | src/syscalls.c:112-130 | a breakpoint, GETPID and GETCPUTIME change nothing but the caller's accounts and return to it |
| Calls.PassiveInterrupt | src/interrupts.c:65-103 | neither does an interrupt with nothing completed and no timer |
| Calls.PasserenTakes | src/syscalls.c:63-65 | a P on a non-zero word takes one off it, changes nothing else, and the caller goes on |
| Calls.PasserenBlocks | src/syscalls.c:66-69 | a P on 0 adds exactly the caller to the waiters of that key and changes no word |
| Calls.VerhogenGives | src/syscalls.c:59-61 | a V without waiters adds one to the word, changes nothing else, and the caller goes on |
| Calls.VerhogenHandsOver | src/syscalls.c:50-58 | as a step, a V with waiters makes the best one ready, changes no word and no other semaphore, and the caller goes on |
| Calls.WaitIoBlocks | src/syscalls.c:71-89 | WAITIO blocks on the row of its line, on a terminal on row 4 for transmission and row 5 for reception |
| Calls.TerminateStep | src/syscalls.c:36-48 | a free PCB is refused with FAILURE and nothing changes; otherwise exactly the target and its descendants are freed, the others keep their order, and the caller goes on with SUCCESS unless it was the target |
| Calls.SpecPassUpRegisters | src/syscalls.c:96-101 | a first registration puts the new and the old area under its kind, changes no other kind and nothing else |
| Calls.SpecPassUpTwice | src/syscalls.c:92-95 | a second one frees exactly the caller and its descendants |
| Calls.CreateStep | src/syscalls.c:20-34 | FAILURE and no change without a free PCB; otherwise the first free PCB becomes the last child, ready at the given priority in the given state, nobody else moves, SUCCESS |
| Calls.StepAreas | src/scheduler.c:154-157 | only an exception that is passed up writes to an area |
| Calls.BootLaw | src/scheduler.c:19-36 | boot runs one process in the given state at priority 1 without a parent, with all other PCBs free and the given words |
| Registrations.StepLasts | src/syscalls.c:91-101 | no step but its own SPECPASSUP changes the areas or the original priority of a live process |
| Registrations.StaysRegistered | src/syscalls.c:91-101 | a registration lasts over every run its process survives |
| Registrations.PassUpRoundTrip | src/scheduler.c:151-157 | registering areas o and n, surviving any run, and raising that exception ends in n with the state at the exception in o |
| Contexts.StepCreates | src/syscalls.c:20-34 | a created process is saved with the state its parent gave |
| Contexts.ContextPreserved | src/scheduler.c:60-122 | over every run, a parked process's saved state changes only in the return register, and only by a completion it was waiting for |
| RoundTrips.RoundTrip | src/scheduler.c:60-122 | from the entry that takes the processor away to the dispatch that gives it back, over any run: what is loaded is the entry state, up to the status of a completion for the call that blocked |
| RoundTrips.AtOnce | src/scheduler.c:74-86 | the same when the preempted process is dispatched again in the same step |
| RoundTrips.FirstRun | src/syscalls.c:20-34 | a created process is first loaded with exactly the state its parent gave |
| Contexts.WorkConserving | src/scheduler.c:80-86 | a step idles exactly when it leaves no current process, and then every PCB is free or blocked |
| Timekeeping.ChargeExact | src/scheduler.c:45-58 | while the true clock is below 2^64, the charge is the true interval if and only if that is below 2^32 ticks, and goes to user or kernel time as asked |
| Charges.ThroughKernel | src/scheduler.c:45-63 | over every step that returns to its program the time since the last switch is charged to the user, the time inside to the kernel (GETCPUTIME in two parts), and the ticks between the two readings of an accounting to nobody |
| Charges.StepCharges | src/scheduler.c:117-162 | the same for a process that blocks, is preempted or has an exception passed up; an unknown call is accounted twice to the user first |
| Charges.AccountExact | src/scheduler.c:45-58 | one accounting charges the time up to its first reading, exactly, and stamps the second |
| Timekeeping.StepTimes | src/scheduler.c:45-58 | every step charges disjoint intervals: nobody beyond the last switch, counted from his first activation |
| Timekeeping.TimeBounds | src/scheduler.c:89-105 | after any run from boot, user plus kernel time of a process is at most the ticks since it first ran, and the sum over live processes at most the ticks since boot |
| Devices.RegisterIndex | src/interrupts.c:118-129 | the address computation inverts `DEV_REG_ADDR`, and `IS_TERMINAL` holds exactly for line 7, on both targets |
| Devices.KeysApart | src/interrupts.c:118-129 | distinct devices, and the two sides of a terminal, have distinct semaphores inside the 6 by 8 table |
| Devices.KeysOnto | src/interrupts.c:15-15 | every cell of the table belongs to a device |
| Division.Normalise | uarm/libdiv.s:30-40 | the divisor and its bit are shifted without overflow until the top bit is set |
| Division.UDivMod | uarm/libdiv.s:10-79 | exact quotient and remainder for all 32-bit operands; 0 and no remainder for divisor 0 |
| Division.UIDiv | uarm/libdiv.s:84-102 | exact unsigned quotient |
| Division.UIDivMod | uarm/libdiv.s:107-113 | exact quotient and remainder, the remainder recomputed modulo 2^32 |
| Division.IDiv | uarm/libdiv.s:118-167 | the truncated signed quotient modulo 2^32, INT_MIN operands included |
| Division.IDivMod | uarm/libdiv.s:172-178 | also the remainder, exact, with the sign of the dividend |
| Division.TruncatedUnique | uarm/libdiv.s:118-167 | truncated division is characterised by the size and sign of the remainder |
| Division.QuotRemTruncated | uarm/libdiv.s:118-178 | the signed results satisfy that characterisation |
| Division.QuotientFits | uarm/libdiv.s:118-167 | the signed quotient is exact unless INT_MIN is divided by -1 |
| Numerals.Convert | src/terminal.c:31-45 | for every 32-bit value and base 2 to 16 a NUL-terminated numeral of that value without leading zero, inside the buffer, whose other cells stay |
| Numerals.NextDigit | src/terminal.c:40-41 | one round of the loop through the software division |
| Numerals.NumeralUnique | src/terminal.c:31-45 | a value has one numeral per base, so the text determines the number |

## Left out

- Terminal and printer drivers, `vtprintf`, BIOS and emulator code, linker scripts and test programs: hardware effects and busy waiting.
- `LDST`, `STST`, `WAIT` and `setTIMER` are the outcome of a step (`KernelState.Cpu`) or nothing; a clock reading is the true time modulo 2^32, advanced before each reading by an arbitrary delay.
- `container_of` address arithmetic and the byte loops of `memset` and `memcpy`: elements are table indices, records are cleared and copied whole.
- Device commands and acknowledgements, and the status registers' own behaviour: registers are inputs of an interrupt step.
- Servicing of printers: the code reads the Ethernet devices for a pending printer line, so what is proved is that it never happens.
- Values stored through user pointers by GETCPUTIME and GETPID; the child pid of CREATEPROCESS is a result of the method and not a store; the extra clock reading of GETCPUTIME is part of the following delay.
- 32-bit wrap-around of priorities and of semaphore words.
- Pids that were freed and reallocated, pids outside the table, a NULL semaphore key, exception kinds above 2, and user programs that write semaphore words themselves.
- Semaphores.Conservation: that the word is 0 while somebody waits is stated for semaphores of user programs; WAITIO blocks on a device semaphore without touching its word.
- Timekeeping.TimeBounds: a first activation at a reading of exactly 0 is indistinguishable from none in `start_tm`, so the bound counts from the true first activation and not from `start_tm`.
- Waiting.BoundedWaiting: the converse, that every run with few expiries can be extended without dispatching the process, is only shown for the family of runs in `Starvation`.
- `list_is_last`, `list_prev` and the reverse iteration macros: not used by the kernel.
- `pcb_make_empty_queue`, `pcb_is_queue_empty`, `pcb_has_no_children`: one list operation each.
