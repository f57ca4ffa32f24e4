# Verified model of the kernel

A small 32-bit x86 teaching kernel: a synchronous message-passing core in the
MINIX manner, an epoch scheduler, a memory manager process that implements fork,
exit and wait by messages, and the drivers and helpers around them. This project
models that code in Dafny and proves what it is meant to guarantee.

Check everything with `dafny verify dfyconfig.toml`.

## What is modelled

* **IPC and scheduling** (`ProcTable`, `SchedSpec`, `IpcSpec`, `Kernel`). `Kernel.Kernel` is the
  process table as the code has it: arrays that are updated in place, with the
  sending queues threaded through `qSending` and `nextSending`. Each system
  call is one atomic step, because a call enters through an interrupt gate; each interrupt and clock tick is taken to
  be one, too. Its contract equates the new state with a function of
  `IpcSpec`, in which the queues are plain sequences; the assertions in the code
  are assertions in the methods, or outcomes (`AssertFail`, `Panic`) where a caller can cause them.
* **The invariant and its runs** (`WaitGraph`, `IpcLog`, `IpcInv`, `IpcRuns`, `SchedRuns`).
  One invariant, of which the scattered assertions are fragments, kept by every
  step of every run; a log of what is posted and taken; the exact conditions under which
  the kernel stops; first-in-first-out channels; bounded waiting; sleep deadlines.
* **What a step leaves alone** (`IpcFrame`, `SchedSpec`, `SchedRuns`). Every system call, interrupt and tick told by
  the tables alone: the messages it writes in memory, the entries, queues and ticks it changes, and that all else stays.
* **The process family** (`Segments`, `Family`, `MemoryManager`, `FamilyFacts`): fork, exit,
  wait and clean-up in place on the kernel's tables, with the segment descriptors and memory slots.
* **Clients and servers together** (`World*`). User processes call servers by
  sending and then receiving, and so does the file system, which calls the servers below it;
  the memory manager receives from anyone, handles one
  request, and performs the sends and slot releases it calls for, which may
  block it in between. Any interleaving of these moves, of disk and clock
  interrupts, and of sleeps is a run. No move of any run panics or trips an assertion, but for two
  requests: a fork that memory is short for, and an exit that leaves a HANGING child to a waiting INIT. (What the
  servers' own loops do with a message is no move; they meet only messages that somebody called them with.)
  The family stays sound; slots and calls follow their life cycles; no request is forgotten; and the history
  in which this is told is the kernel's own log of messages. Whoever stays runnable gets its turn within a bound
  that only births raise.
* **Three runs from boot** (`Scenes`, `Scenarios`), built move by move, that lead to the failures of exit, wait and fork.
* **Disk and files** (`Disk`, `Fat`, `FileSystem`), **page tables** (`Paging`), **consoles** (`Console`),
  **input buffers and line editing** (`InputBuffer`, `Terminal`), **calendar time** (`Calendar`),
  **integer printing** (`Printf`).

## Where the code is not what it is described as

* `wait()` counts slots by `p_parent` alone, and clean-up never resets that field. A process whose
  children are all gone is suspended, and, but for INIT, for ever. `FamilyFacts.WaitMeetsItsDescription` gives the
  exact condition on the table, `WorldWaits.WaitWithoutChildren` the one on the history, and
  `Scenarios.WaitSuspendsTheChildless` a run from boot.
* `do_exit` runs into `assert(0)` on a path that its description calls normal. `WorldRuns.Next` is the machine as
  described and `WorldRuns.CodeNext` the one as coded, which stops there. `FamilyFacts.TrapCondition` says exactly
  when the assertion is reached, and `Scenarios.TheTrapIsSprung` gives a run from boot that reaches it.
* `do_fork` copies nothing for testA, testB and testC: the size of their 4 GB segment comes out as 0 in an int.
  `FamilyFacts.ForkCopiesTheSegment` gives the condition on the table, `WorldForks.WhatForkCopies` the callers in every
  run, and `Scenarios.TestAForksInVain` a run from boot.
* `read_file` checks a request in 32-bit arithmetic. `Fat.WhatSlipsThrough` gives exactly the requests that get
  past the check although they reach past the end of the file; `Fat.RestOfNothingIsCopied` is the case
  in which bytes are copied and 0 is returned; for an empty file, and one that fills its last cluster, they are not even
  the file's: `Fat.OnlyNothingIsWantedThere`, `FileSystem.FileSystem.ReadFile`.
* `read_fat` loads the table from a fixed place: `Fat.LoadedTableIsTheVolumes`.
* A read of more than 128 KB, in one call of `hd_read_bytes`, waits for ever, and a read of no bytes leaves
  the drive with 256 sectors to deliver: `Disk.EnoughSectors`.
* A backspace on an empty line is stored; the next one takes it back: `Terminal.WhenTheLineIsAsExpected`.
* `%d` prints a minus and characters below '0' for the least int, whose negation wraps: `Printf.DecimalReadsBack`.
* `mktime` is exact up to 06:28:15 on 7 February 2106: `Calendar.MktimeIsExact`.

## Model

| member | source | states |
|---|---|---|
| SchedSpec.PickExists | src/kernel/sched.c:156-182 | If some runnable process has ticks, there is a selection: the lowest-numbered of those with most ticks |
| SchedSpec.ScheduleFindsAProcess | src/kernel/sched.c:151-204 | Scheduling always finds a runnable process with ticks, given the terminal task, which never blocks |
| SchedSpec.ScheduledIsSame | src/kernel/sched.c:158-192 | Scheduling changes only ticks, deadlines and expired sleeps, so the assertions behind block() see the entry they left |
| SchedSpec.ScheduleMeetsItsDescription | src/kernel/sched.c:158-192 | Entry by entry: ticks change only to the priority, only for a process that is runnable or wakes up, and only if no such process has any left; exactly the sleepers whose deadline has come wake up and lose it; no other field changes |
| SchedSpec.SelectedHasMostTicks | src/kernel/sched.c:171-179 | The selected process is READY with ticks, as many as any READY process, and more than any before it in the table |
| WaitGraph.NewEdgeKeepsAcyclic | src/kernel/sched.c:334-338 | A send whose receiver does not reach the sender leaves the wait-for graph acyclic |
| WaitGraph.NoProcessWaitsForItself | src/kernel/sched.c:284-314 | In an acyclic graph no chain of blocked senders comes back to its start |
| WaitGraph.EveryChainEnds | src/kernel/sched.c:287-312 | Every chain of blocked senders ends at a process that is not sending, so the walk terminates |
| WaitGraph.NothingPastEnd | src/kernel/sched.c:308-311 | Nothing is reachable past a process that is not sending: the walk may stop there |
| WaitGraph.ReachedAlongAChain | src/kernel/sched.c:287-308 | A process is reached exactly if a sequence of processes, each SENDING to the next, leads to it |
| IpcLog.EnqueueKeepsLog | src/kernel/sched.c:374-389 | Posting to a queue keeps the log equal to what is taken plus what is queued, per destination and in order |
| IpcLog.TakeKeepsLog | src/kernel/sched.c:513-543 | Taking a queued message removes that sender's oldest outstanding message and no other |
| IpcLog.RendezvousKeepsLog | src/kernel/sched.c:345-354 | A direct copy is posted and taken at once and leaves what is outstanding as it was |
| IpcInv.EnqueueKeepsCore | src/kernel/sched.c:369-397 | Blocking in a send keeps queues, legal entries, acyclicity, no missed rendezvous and the log |
| IpcInv.RendezvousKeepsInv | src/kernel/sched.c:340-366 | Completing a receive keeps the whole invariant |
| IpcInv.TakeKeepsInv | src/kernel/sched.c:513-543 | Unblocking a queued sender keeps the whole invariant |
| IpcInv.AwaitKeepsCore | src/kernel/sched.c:546-563 | Blocking in a receive leaves no sender and no interrupt that it should have been given |
| IpcInv.TakeInterruptKeepsInv | src/kernel/sched.c:425-444 | Serving a held-back interrupt keeps the whole invariant |
| IpcInv.InterruptKeepsInv | src/kernel/sched.c:656-679 | An interrupt for any task trips no assertion and is never held back from a task that waits for it |
| IpcInv.RescheduleKeepsCore | src/kernel/sched.c:151-204 | Giving the processor away restores the invariant with a runnable process running |
| IpcInv.TickKeepsInv | src/kernel/clock.c:3-25 | A clock interrupt, nested or not, keeps the invariant |
| IpcInv.SleepKeepsInv | src/kernel/syscall.c:22-30 | Going to sleep keeps the invariant |
| IpcInv.SysSendKeepsInv | src/kernel/sched.c:572-593 | A send through the system call keeps the invariant whenever it completes |
| IpcInv.SysReceiveKeepsInv | src/kernel/sched.c:594-599 | A receive through the system call keeps the invariant whenever it completes |
| Kernel.HookedIsLinked | src/kernel/sched.c:374-389 | Hooking a sender behind the last entry makes the links thread the queue with it appended, nil-terminated |
| Kernel.UnhookedIsLinked | src/kernel/sched.c:515-528 | Unhooking an entry anywhere in a queue makes the links thread the queue without it, the others in order |
| Kernel.QueuesAreSeparate | src/kernel/sched.c:374-389 | Each process stands in at most one queue, and there once |
| Kernel.Kernel.constructor | src/kernel/sched.c:20-115 | The boot tables satisfy the invariant |
| Kernel.Kernel.WakeAndPick | src/kernel/sched.c:158-182 | One pass wakes the expired sleepers and finds the best runnable process, if any has ticks |
| Kernel.Kernel.Schedule | src/kernel/sched.c:151-204 | Terminates in at most two passes, refills only when nobody runnable has ticks, and selects the specified process |
| Kernel.Kernel.Deadlock | src/kernel/sched.c:284-314 | Terminates, and returns 1 exactly when the sender is reachable from the receiver along blocked sends |
| Kernel.Kernel.QueueTail | src/kernel/sched.c:378-380 | The link walk ends at the last entry of the queue |
| Kernel.Kernel.AppendSender | src/kernel/sched.c:374-389 | The caller is queued last and the links still thread exactly the queues |
| Kernel.Kernel.MsgSend | src/kernel/sched.c:325-399 | msg_send refines the specified send: rendezvous, queueing, panic and failed assertion in exactly the specified cases |
| Kernel.Kernel.FindSender | src/kernel/sched.c:481-494 | The search finds the sender and the entry before it |
| Kernel.Kernel.Unlink | src/kernel/sched.c:515-528 | The sender leaves the queue, the others keep their order |
| Kernel.Kernel.MsgReceive | src/kernel/sched.c:412-565 | msg_recevie refines the specified receive: interrupt, oldest or named sender, blocking, and failed assertion |
| Kernel.Kernel.ChooseSender | src/kernel/sched.c:447-508 | Finds the blocked sender that the receive serves, with the entry before it in the queue, exactly if there is one |
| Kernel.Kernel.ServeOrBlock | src/kernel/sched.c:447-563 | Without an interrupt to take, serves that sender or blocks, as specified |
| Kernel.Kernel.SysSendRec | src/kernel/sched.c:572-607 | Argument checks, stamping with the caller's number, dispatch, and the panic on an unknown function |
| Kernel.Kernel.InformInt | src/kernel/sched.c:656-679 | Completes a waiting receive or sets the one-bit flag, and trips no assertion |
| Kernel.Kernel.DeliverInterrupt | src/kernel/sched.c:660-675 | Completing the task's receive leaves it ready, with the interrupt message in its buffer, and trips none of the assertions |
| Kernel.Kernel.ClockHandler | src/kernel/clock.c:3-25 | Counts, charges the running process and reschedules when its ticks are used up, but not when nested |
| Kernel.Kernel.SysSleep | src/kernel/syscall.c:22-30 | Sets the flag and the deadline, with the 32-bit product and truncating division, and gives the processor away |
| IpcRuns.BootInv | src/kernel/sched.c:20-115 | The boot state satisfies the invariant |
| IpcRuns.RunKeepsInv | src/kernel/sched.c:325-565 | Every state of every run of sends, receives, interrupts, ticks and sleeps satisfies the invariant |
| IpcRuns.WhatStopsTheMachine | src/kernel/sched.c:330-338 | An assertion fails exactly on talking to oneself or on blocking on one partner with an interrupt held back; panic exactly when a send closes a cycle |
| IpcRuns.ChannelIsFifo | src/kernel/sched.c:345-366 | On every channel, messages taken plus messages on their way equal messages posted, in order |
| IpcRuns.SourcesAreAuthentic | src/kernel/sched.c:582-586 | Every message taken was posted before, by the process its source field names |
| IpcRuns.DeliveryReachesMemory | src/kernel/sched.c:348-360 | A rendezvous leaves the sender's stamped message in the receiver's buffer and unblocks it |
| IpcRuns.ReceiveServesInOrder | src/kernel/sched.c:448-545 | A receive from ANY serves the oldest sender, one by source that sender; the others stay queued in their order; the message arrives in memory |
| IpcRuns.InterruptArrives | src/kernel/sched.c:656-679 | An interrupt completes the receive of a task that waits for one, with the interrupt message in its buffer; otherwise it is held back and nothing else changes |
| IpcRuns.InterruptIsHeldUntilTaken | src/kernel/sched.c:425-444 | A held-back interrupt is cleared by its receiver's next receive from ANY or INTERRUPT, which it completes at once, and by nothing else |
| IpcFrame.OnlyMessagesAreWritten | src/kernel/sched.c:348-350 | A step writes the caller's own message and, if it completes a receive, that receiver's buffer; every other message of every process stays as it is |
| IpcFrame.MemoryLasts | src/kernel/sched.c:348-350 | In any run a message in memory changes only by a step that writes that address of that process |
| IpcFrame.SendWrites | src/kernel/sched.c:345-350 | After a send the sender's message names it and is otherwise unchanged, and a receiver that was waiting for it has the same message |
| IpcFrame.ReceiveWrites | src/kernel/sched.c:425-541 | After a receive the caller finds the zeroed interrupt message, or the message of the first sender in its queue or of the one it asked for, or, if it is blocked, its own message stamped |
| IpcFrame.InterruptWrites | src/kernel/sched.c:660-663 | An interrupt overwrites the source and the type of the message in the waiting task's buffer and nothing else of it |
| IpcFrame.SendSettles | src/kernel/sched.c:340-397 | A send to a waiting process unblocks that process and changes no other entry, queue or turn; any other send blocks the sender, last in the queue, and gives up the processor |
| IpcFrame.ReceiveSettles | src/kernel/sched.c:425-563 | A receive clears a held-back interrupt, or unblocks the sender it meets and closes the gap in the queue, or blocks the receiver and gives up the processor; no other entry changes but for scheduling |
| IpcFrame.InterruptSettles | src/kernel/sched.c:656-679 | An interrupt unblocks a task that waits for one and sets the flag of any other; no other entry, queue or turn changes |
| IpcFrame.FamilyFieldsStay | src/kernel/sched.c:325-565 | No step changes anybody's parent, exit status, priority, segments, or WAITING, HANGING and FREE_SLOT bits |
| IpcFrame.NapSettles | src/kernel/syscall.c:22-30 | The caller sleeps with the deadline that many ticks ahead and somebody else runs, or, if the deadline is not ahead, it is runnable at once |
| SchedRuns.PatienceFalls | src/kernel/sched.c:171-192 | With every tick, a process that stays runnable and is not selected comes nearer to its turn |
| SchedRuns.BoundedWaiting | src/kernel/sched.c:151-204 | In any run a process that stays runnable is selected within twice the sum of all priorities in ticks |
| SchedRuns.BootIsTimed | src/kernel/sched.c:110 | The boot state meets the premises of the waiting bound |
| SchedRuns.HowTicksChange | src/kernel/clock.c:10 | A process's ticks change in two ways only: the clock takes one from the running process, or a new epoch gives their priority to all runnable processes at once and to no other |
| SchedRuns.BlockedKeepTheirTicks | src/kernel/sched.c:184-192 | In any run a process keeps its ticks for as long as it is blocked |
| SchedRuns.NestedTickOnlyCounts | src/kernel/clock.c:13-17 | A clock interrupt in ring 0 adds to the clock, takes one tick from the running process, and changes nothing else |
| SchedRuns.ClockTakesTheProcessor | src/kernel/clock.c:18-24 | Any other one does the same while ticks are left, and with the last one selects a READY process with most ticks |
| SchedRuns.WaitingFromBoot | src/kernel/sched.c:42-110 | In any run from boot a native process that stays runnable is selected within 190 ticks |
| SchedRuns.ScheduleWakes | src/kernel/sched.c:160-169 | schedule() wakes exactly the sleepers whose deadline has come |
| SchedRuns.SleepLength | src/kernel/syscall.c:24-26 | A sleep lasts as many whole ticks as fit into the time asked for, exactly if the product does not wrap |
| SchedRuns.SleepWrapsAndTruncates | src/kernel/syscall.c:24 | For any argument the product wraps to 32 bits and is divided with rounding towards zero |
| SchedRuns.NobodyWakesEarly | src/kernel/sched.c:160-169 | In any run a sleeper stays asleep, with its deadline, until that deadline |
| SchedRuns.NobodyOversleeps | src/kernel/clock.c:18-24 | Past its deadline a sleeper is awake within the running process's priority in ticks |
| Segments.EncodeDecode | src/kernel/main.c:16-31 | Descriptor encoding and decoding is an exact round trip for any 32-bit base and 20-bit limit, and the granularity is that of the attributes |
| Segments.FieldsOfDescriptor | src/kernel/main.c:16-31 | Each field holds the bits of base, limit and attributes that the processor expects there; attribute bits 0 to 7 and 12 to 15 are kept; every field fits |
| Segments.AllocationIsPlaced | src/mm/main.c:88-105 | alloc_mem grants 0xA00000 + (pid - 9) * 0x200000, exactly if the request is at most 2 MB and ends below the memory size from there, and refuses otherwise |
| Segments.AllocationsAreApart | src/mm/main.c:88-105 | What is granted to two processes lies as many times 2 MB apart as their numbers, does not overlap, and ends below the memory size |
| Segments.SizeIsExact | src/mm/forkexit.c:61-64 | The computed size is the segment's exactly if that is less than 2 GB |
| Segments.SlotDecodes | src/mm/forkexit.c:99-106 | The descriptors fork writes decode to 0xA00000 + (pid - 9) * 0x200000 and 2 MB |
| Segments.SlotTranslation | src/kernel/sched.c:220-250 | An address within the segment translates into the process's own slot |
| Segments.SlotsAreIsolated | src/mm/main.c:98-99 | Addresses within the segments of two slots never translate to the same place |
| Segments.SlotIsInPlace | src/mm/main.c:98-99 | A slot's segments start at 10 MB and pid - 9 times 2 MB, have 2 MB, and take each address to its distance from there |
| Family.FirstHanging | src/mm/forkexit.c:314-328 | The lowest-numbered HANGING child, or none |
| Family.FirstFree | src/mm/forkexit.c:21-23 | The lowest-numbered free slot, or none |
| MemoryManager.MemoryManager.CleanUp | src/mm/forkexit.c:268-280 | First the message with status and pid to the parent, then the slot |
| MemoryManager.MemoryManager.DoWait | src/mm/forkexit.c:305-349 | The scan reaps the first HANGING child, or suspends the caller, or refuses, as specified on the table |
| MemoryManager.MemoryManager.LeaveParent | src/mm/forkexit.c:205-230 | A waiting parent is told, otherwise the process is left HANGING |
| MemoryManager.MemoryManager.GiveAway | src/mm/forkexit.c:234-254 | One slot passes to INIT if it names the dead process, and is cleaned up if INIT waits and it is HANGING |
| MemoryManager.MemoryManager.GiveAwayChildren | src/mm/forkexit.c:233-255 | All children pass to INIT, which, if it waits, reaps the first HANGING one; the trap is reached exactly then |
| MemoryManager.MemoryManager.DoExit | src/mm/forkexit.c:181-256 | The whole of exit, as specified on the table |
| MemoryManager.MemoryManager.DoFork | src/mm/forkexit.c:14-126 | The child's entry, links, memory and segments, or the refusal, panic or failed assertion |
| MemoryManager.MemoryManager.FindSlot | src/mm/forkexit.c:20-24 | The search loop ends at the lowest-numbered free slot, or behind the table |
| MemoryManager.MemoryManager.FillSlot | src/mm/forkexit.c:32-122 | The child's entry, links and memory are copies, with segments of its own, and its flags are the parent's again |
| MemoryManager.MemoryManager.HandleRequest | src/mm/main.c:22-54 | One pass of the request loop: which requests are answered at once, and how, and which stop it: an exit exactly if it is trapped |
| MemoryManager.ForkKeepsLinks | src/mm/forkexit.c:39 | Copying the parent's queue links is harmless: nobody is queued at it |
| FamilyFacts.WaitMeetsItsDescription | src/mm/forkexit.c:296-301 | wait reports "no child" exactly when there is none, if and only if the caller has a child or no free slot still names it |
| FamilyFacts.WhatWaitDoes | src/mm/forkexit.c:305-349 | wait reaps the lowest-numbered HANGING child, with its status and number in the message, suspends the caller if slots name it but none is HANGING, and refuses if none does; the table changes by WAITING alone |
| FamilyFacts.TrapCondition | src/mm/forkexit.c:244-249 | assert(0) is reached exactly when INIT waits, is not the parent, and the dying process leaves a HANGING child; the first such child is the one cleaned up |
| FamilyFacts.WhatExitLeaves | src/mm/forkexit.c:181-256 | The whole table after exit: status kept, children INIT's, WAITING cleared of a waiting parent or else HANGING set, INIT's WAITING cleared on that guard, nothing else changed |
| FamilyFacts.WhatExitReports | src/mm/forkexit.c:207-250 | The messages and releases due after exit, in order: the dead process's to a waiting parent, then the first inherited HANGING child's to INIT on that guard |
| FamilyFacts.ForkRepliesOnce | src/mm/main.c:30-53 | Every fork request is answered exactly once, with 0 and the child's number or with -1 in the request's own message, and the child, with 0, before the caller |
| FamilyFacts.WhenForkFails | src/mm/forkexit.c:21-90 | fork fails exactly without a free slot, if the caller's segments differ in base, limit or granularity, or if the size is over 2 MB or reaches the end of memory from the slot's place on, in this order |
| FamilyFacts.ForkMakesACopy | src/mm/forkexit.c:32-122 | The child's entry is the parent's but for the parent and the segments: user code and data over the 2 MB of the lowest free slot; its memory is the parent's as far as the computed size goes and otherwise unchanged; nobody else changes |
| FamilyFacts.ForkCopiesTheSegment | src/mm/forkexit.c:61-94 | Whatever the memories hold, the child gets all of the parent's segment, exactly if that has less than 2 GB |
| FamilyFacts.ForkCopiesNothing | src/mm/forkexit.c:61-94 | A fork with a computed size of 0 leaves all memory as it was |
| WorldInv.CallChain | src/kernel/main.c:264 | The chain of blocked senders from a called server leads along calls of ever lower servers to a caller past its send, and never to the process that calls |
| WorldInv.CallClosesNoCycle | src/kernel/sched.c:334-338 | A call, by a user process or by the file system, never trips the deadlock panic |
| WorldInv.AnswerClosesNoCycle | src/kernel/sched.c:334-338 | An answer to a client whose request was taken never trips the deadlock panic |
| WorldInv.NobodyQueuedAt | src/mm/forkexit.c:39 | Nobody but a server with its answer is ever queued at a client |
| WorldSteps.CallTakenKeepsWorld | src/kernel/sched.c:628 | A call that meets a waiting server keeps the invariant of the combined machine |
| WorldSteps.CallQueuedKeepsWorld | src/kernel/sched.c:628 | A call that must wait keeps it |
| WorldSteps.AwaitFetchesKeepsWorld | src/kernel/sched.c:632 | The second half of a call keeps it when the answer is already queued |
| WorldSteps.AwaitBlocksKeepsWorld | src/kernel/sched.c:632 | The second half of a call keeps it when the answer is still to come |
| WorldSteps.AcceptServesKeepsWorld | src/mm/main.c:22 | A server taking the oldest request keeps it |
| WorldSteps.AnswerKeepsWorld | src/mm/main.c:50-53 | An owed answer keeps it and trips nothing, whether the client is already receiving or still before its receive |
| WorldManager.WaitReapsKeepsWorld | src/mm/forkexit.c:317-326 | Reaping by wait keeps family and protocol |
| WorldManager.WaitSuspendsKeepsWorld | src/mm/forkexit.c:330-332 | Suspending by wait keeps them: no HANGING child is waited for |
| WorldManager.ExitKeepsFamily | src/mm/forkexit.c:207-255 | After exit every forked process has a live parent again and nobody waits for a HANGING child |
| WorldManager.ExitKeepsWorld | src/mm/forkexit.c:144-163 | Exit, as it is described, keeps the invariant of the combined machine; `WorldRuns.WhatStopsTheCode` says where the code stops instead |
| WorldManager.ForkKeepsWorld | src/mm/forkexit.c:14-126 | Fork keeps it and stops the machine exactly when memory is short |
| WorldManager.PerformAnswerKeepsWorld | src/mm/forkexit.c:123 | Sending one of the due messages keeps it |
| WorldManager.PerformReleaseKeepsWorld | src/mm/forkexit.c:276 | Freeing a reaped slot keeps it |
| WorldRuns.BootIsOk | src/kernel/main.c:132-148 | The boot state satisfies the combined invariant |
| WorldRuns.RunStaysOk | src/mm/main.c:21-54 | Every state of every run satisfies the combined invariant: IPC, protocol, the manager's duties, live parents, no vain wait, and segments of their own |
| WorldRuns.NothingStopsTheMachine | src/mm/forkexit.c:149-163 | With exit as it is described, no move of the discipline panics or trips an assertion, except a fork for which memory is short, and exactly then; the others keep the invariant |
| WorldRuns.TrapIsGuarded | src/mm/forkexit.c:244-249 | A handled exit runs into assert(0) exactly if INIT waits, is not the parent, and some HANGING process is the caller's child |
| WorldRuns.WhatStopsTheCode | src/mm/main.c:21-54 | A move of the code panics or trips an assertion exactly if it handles a fork for which memory is short or an exit that is trapped; otherwise it does what is described |
| WorldRuns.WhatStopsARun | src/mm/main.c:21-54 | In every state of every run of the code these two requests are all that can stop a move |
| WorldRuns.CodeRunsAreRuns | src/mm/forkexit.c:249 | What the code does until it stops is a run of the machine as described, so that all that holds of those holds of the code |
| WorldRuns.LiveProcessesAreIsolated | src/mm/forkexit.c:89-106 | In every run no address of one slot in use translates to the same place as one of another |
| WorldRuns.WhereProcessesLive | src/mm/main.c:98-99 | In every run the segments of the process in slot p start at 0xA00000 + (p - 9) * 0x200000 and take every address below 2 MB to that distance from there |
| WorldNotes.ReapTellsTheParent | src/mm/forkexit.c:270-274 | A death is reported with the child's number and status to the parent at that time |
| WorldNotes.HistoryIsFaithful | src/mm/forkexit.c:181-349 | In every run the history of births, deaths, reports and releases agrees with the tables |
| WorldNotes.ReapedOnceAnsweredOnce | src/mm/forkexit.c:268-280 | Each slot goes birth, death, one report of that status, release, never out of turn; no client is answered twice, unasked or by another server |
| WorldLog.SendPosts | src/kernel/sched.c:582-586 | A send that goes through posts just the caller's message, stamped with its number |
| WorldLog.HistoryIsTheLog | src/mm/forkexit.c:270-274 | In every run the calls and answers of the history are, in order, the messages that the kernel logged as posted, and each report of a death is followed by the message to the parent with that status and number |
| WorldLog.ServersAreUnderstood | src/kernel/systask.c:36-68 | In every run from boot a server takes only what it was called with, or an answer to its own call; so no server's loop panics on a message if the callers send what the servers understand |
| WorldWaits.ReleaseKeepsParent | src/mm/forkexit.c:276 | Freeing a slot resets its flags and nothing else, so that it goes on naming its parent |
| WorldWaits.ParentsAreTheHistorys | src/mm/forkexit.c:234-236 | In every run each slot, free or not, names the parent its last occupant was born to, or INIT once that one has died |
| WorldWaits.WaitWithoutChildren | src/mm/forkexit.c:314-341 | In every run a process without a child is refused by wait exactly if no slot's last occupant was its child; otherwise it is suspended |
| WorldWaits.WaitAfterTheLastReaping | src/mm/forkexit.c:314-332 | In every run a process that has given birth and has no child left is suspended |
| WorldWaits.StrandedForEver | src/mm/forkexit.c:205-218 | In every run a process other than INIT that waits without a child waits in all that follows |
| Scenarios.OpensDisk | src/kernel/main.c:262-264 | From boot the file system's first call, of the disk task, is taken and it is blocked for the answer |
| Scenarios.WaitSuspendsTheChildless | src/mm/forkexit.c:314-332 | The failing case of wait: a run of the code from boot in which INIT, its only child reaped, is suspended |
| Scenarios.TestAForksInVain | src/mm/forkexit.c:93-94 | The failing case of fork: a run of the code from boot in which testA's fork goes through and its child has nothing of its memory |
| Scenarios.TheTrapIsSprung | src/mm/forkexit.c:244-249 | The failing case of exit: a run of the code from boot that stops at assert(0) |
| WorldForks.NativesStayAsBooted | src/kernel/sched.c:48-74 | In every run from boot the native processes keep the segments of the boot table |
| WorldForks.WhatForkCopies | src/mm/forkexit.c:61-94 | In every run from boot a fork that goes through copies its caller's whole segment, whatever the memories hold, exactly if the caller is INIT or was forked; otherwise it copies nothing |
| WorldTurns.MoveTriesPatience | src/kernel/sched.c:151-192 | Every move that is charged a tick brings a runnable process nearer to its turn; only a birth, by twice the parent's priority, puts it off |
| WorldTurns.EveryoneGetsATurn | src/kernel/sched.c:151-204 | In any run of calls, forks, exits, waits, sleeps and interrupts, a process that stays runnable is selected within twice the sum of all priorities in ticks, plus twice the parent's priority for each birth |
| WorldTurns.NoBirthsNoAllowances | src/mm/forkexit.c:39 | Without a fork that succeeds, the bound is the kernel's own |
| WorldTurns.BlockedKeepTicksInRuns | src/kernel/sched.c:184-192 | In any run of the combined machine a process in use keeps its ticks for as long as it is blocked |
| WorldMemory.OnlyTouchedIsWritten | src/kernel/sched.c:348-350 | One move of the combined machine writes the mover's own message, the buffer of a receiver that it completes, and, for a birth, the newborn's memory; no other message of any process changes |
| WorldMemory.MemoryLastsInRuns | src/kernel/sched.c:348-350 | In any run of the combined machine a message stays in memory until a move writes it |
| WorldDebts.ExitLists | src/mm/forkexit.c:207-250 | Exit has a message due to everybody whose WAITING it clears |
| WorldDebts.RunRemembers | src/mm/main.c:21-54 | In every run, whomever the manager owes an answer has its request in hand, is on its list, waits for a child, or has exited |
| WorldDebts.EveryRequestIsAnswered | src/mm/main.c:21-54 | Whenever the manager waits for a request, it owes an answer only to clients that wait for a child or have exited: no fork or wait goes unanswered |
| Disk.CommandIsUnderstood | src/kernel/hd.c:132-138 | The registers name the right disk and sector for every LBA28 address, and the right count from 1 to 256 |
| Disk.RegistersNameTheSector | src/kernel/hd.c:132-136 | The address's low 24 bits are in the three byte registers, low byte first, bits 24 to 27 in the device register beside the drive and the LBA bit |
| Disk.EnoughSectors | src/kernel/hd.c:127-136 | Exactly the requests of up to 128 KB are given enough sectors, and none to spare unless no byte is asked for |
| Disk.Drive.NextSector | src/kernel/hd.c:146-148 | One interrupt, one sector, or waiting for ever |
| Disk.Drive.Transfer | src/kernel/hd.c:142-152 | The loop fills the buffer with just the bytes asked for and takes one interrupt a sector |
| Disk.Drive.HdReadBytes | src/kernel/hd.c:121-152 | Completes exactly up to 128 KB, with exactly those bytes of that disk and ceil(n/512) interrupts; none are left over, except 256 for no bytes |
| Fat.TableRoundTrip | src/fs/fat.c:308-316 | get_next_cluster reads back every entry written as two bytes, the low one first, and 0 for those from 0xFFF8 on |
| Fat.EntryOnBytes | src/fs/fat.c:308-316 | An entry leads to a cluster exactly if its two bytes hold that number, and ends the chain exactly if they are 0xF8 or more and 0xFF, or both 0 |
| Fat.ChainOnBytes | src/fs/fat.c:308-329 | The chains of the model are exactly those that stand in the bytes of the table |
| Fat.ChainIsAcyclic | src/fs/fat.c:308-316 | A chain that ends visits no cluster twice |
| Fat.ChainIsUnique | src/fs/fat.c:308-316 | The table and the first cluster determine the chain |
| Fat.LayoutTiles | src/fs/fat.c:485-491 | Reserved sectors, tables, root directory and clusters, of four sectors each from cluster 2 on, follow each other without a gap |
| Fat.LoadedTableIsTheVolumes | src/fs/fat.c:106-116 | The bytes that are loaded are those of the volume's table, whatever is on the disk, exactly if the partition begins at sector 1 |
| Fat.ByteOfContents | src/fs/fat.c:339-342 | Byte r of a chain's k-th cluster c lies at byte (data start + 4 (c - 2)) * 512 + r of the disk |
| Fat.PlainRequestsAreChecked | src/fs/fat.c:445-447 | Without wrap-around the assertion holds exactly for ranges within the file |
| Fat.WhatSlipsThrough | src/fs/fat.c:445-447 | Exactly the wrapping requests pass the assertion although they reach past the end |
| Fat.CountsWhatItCopies | src/fs/fat.c:452-456 | The first phase counts what it copies exactly if something is wanted |
| Fat.RestOfNothingIsCopied | src/fs/fat.c:334-338 | By the size arithmetic, asking for the rest from the end of the file copies bytes and counts none; which bytes is in ReadFile |
| Fat.OnlyNothingIsWantedThere | src/fs/fat.c:445-451 | Past the end of a chain that holds the file, the only request that passes is the one for the rest, at the end of a file that fills its clusters |
| Fat.ChainLeadsTo | src/fs/fat.c:318-329 | Following a chain leads through its clusters and then to cluster 0 |
| Fat.PhasesJoin | src/fs/fat.c:454-465 | The two phases together deliver the wanted slice of the chain's contents, as far as the chain goes |
| FileSystem.FileSystem.ReadFat | src/fs/fat.c:106-116 | The sectors from the assumed place on are loaded byte for byte |
| FileSystem.FileSystem.Mount | src/fs/fat.c:485-492 | The volume record, the layout, and the bytes of the loaded table |
| FileSystem.FileSystem.GetOffsetCluster | src/fs/fat.c:318-329 | The cluster to which the table leads from the first one in as many steps as the offset has clusters |
| FileSystem.FileSystem.ReadOneCluster | src/fs/fat.c:331-344 | That slice of that cluster, or the failed assertion; size 0 means the rest |
| FileSystem.FileSystem.ReadClusterChain | src/fs/fat.c:345-383 | As many bytes as asked for and as the chain has, from its start, with ceil(n/512) interrupts |
| FileSystem.FileSystem.ReadFile | src/fs/fat.c:438-469 | Returns the wanted count and exactly that slice of the concatenated clusters, cut short only by the chain's end; if nothing is wanted, returns 0 and copies the rest of a cluster: past the chain's end that of cluster 0, eight sectors before the data |
| Paging.EntryRoundTrip | src/boot/setup_c.c:34-69 | The bit fields of an entry stand in bits 0, 1, 2 and 12 to 31 of the word and are recovered from it |
| Paging.WordsOfTheTables | src/boot/setup_c.c:170-196 | Every word that is written: present, writable, user pages at 4096 times their number, and 6 for page 0 |
| Paging.TablesCoverMemory | src/boot/setup_c.c:164-168 | The tables cover all of memory, at most 1024 of them |
| Paging.TablesEndBelowBuffer | src/boot/setup_c.c:163-168 | With the directory at 1 MB the tables end below 0x700000 for every memory size |
| Paging.WalkIsIdentity | src/boot/setup_c.c:160-198 | The two-level walk maps every covered address to itself, and page 0 to nothing |
| Paging.SetupPaging | src/boot/setup_c.c:160-198 | The loops build such tables, for every memory size, and touch no other memory |
| Console.TypingKeepsSound | src/kernel/console.c:99-133 | Any character keeps cursor and window inside the console's range, and the cursor above the window's end |
| Console.ScrollingKeepsSound | src/kernel/console.c:67-94 | Scrolling keeps the window row-aligned and inside the range, and leaves the cursor alone |
| Console.ScrollsOneLine | src/kernel/console.c:67-86 | Of 45 places, scrolling moves the window to the next one in its direction, exactly if there is one, and the other direction undoes it |
| Console.ScrollsAddUp | src/kernel/console.c:67-86 | n scrolls in one direction move the window by n lines, or by as many as are left |
| Console.WindowFollows | src/kernel/console.c:128-130 | The window moves down by the least number of lines that shows the cursor |
| Console.NewlineStartsALine | src/kernel/console.c:103-109 | A line feed goes to the start of the next line |
| Console.BackspaceTakesBack | src/kernel/console.c:110-125 | A backspace takes the last character back and blanks its cell exactly if there was room for it |
| Console.OneCellAtMost | src/kernel/console.c:99-126 | A character changes only the cell that the cursor passes, or none at the ends of the range and for a line feed |
| Console.TextAppears | src/kernel/console.c:118-125 | A typed text stands in the video memory from the cursor on, in order, and nothing else has changed |
| Console.ConsolesAreIsolated | src/kernel/console.c:17-42 | Whatever happens on all consoles, each ends up, memory included, as if only its own events had happened |
| Console.Console.constructor | src/kernel/console.c:17-42 | Each console starts in a range of its own and writes nothing outside it |
| Console.Console.ScrollScreen | src/kernel/console.c:67-94 | scroll_screen refines the specified scrolling |
| Console.Console.OutChar | src/kernel/console.c:99-133 | out_char, with its scroll loop, refines the specified typing and painting |
| Console.Console.FollowCursor | src/kernel/console.c:128-130 | The scroll loop terminates with the specified window |
| InputBuffer.ReadInOrder | src/kernel/tty.c:80-99 | Under any interleaving the reader sees just the accepted items, in order |
| InputBuffer.NothingElseIsLost | src/kernel/keyboard.c:195-204 | Every arrival is accepted or counted as dropped |
| InputBuffer.NothingDroppedInTime | src/kernel/keyboard.c:195-204 | Nothing is dropped exactly if at every arrival less is queued than the buffer holds |
| InputBuffer.PlaceIsModular | src/kernel/tty.c:191-195 | The wrapping index is the sum modulo the size |
| InputBuffer.ItemsAfterPut | src/kernel/tty.c:189-199 | Writing at the head appends to the items |
| InputBuffer.ItemsAfterGet | src/kernel/tty.c:86-95 | Moving the tail drops the first item |
| InputBuffer.Ring.Put | src/kernel/tty.c:189-199 | put_key refines a bounded queue that drops when full |
| InputBuffer.Ring.Get | src/kernel/keyboard.c:27-45 | A get takes the oldest item |
| Terminal.EditedIsExpectedUpToAStray | src/kernel/tty.c:106-117 | The line is the expected one, with a backspace in front if an odd number of them found it empty |
| Terminal.WhenTheLineIsAsExpected | src/kernel/tty.c:109-114 | The line is the expected one exactly if that number is even |
| Terminal.BackspaceIsStored | src/kernel/tty.c:109-115 | The failing case |
| Terminal.Tty.GetChar | src/kernel/tty.c:80-99 | Waits for a key while keys arrive, and takes the oldest |
| Terminal.Tty.DoRead | src/kernel/tty.c:100-121 | Takes the accepted keys in order up to the first line feed and leaves their fold, ended by a 0 |
| Calendar.LeapDaysStep | src/lib/libc.c:45-53 | The closed form grows by one exactly at leap years |
| Calendar.MktimeCounts | src/lib/libc.c:17-64 | mktime equals, modulo 2^32, the seconds got by summing years and months one by one |
| Calendar.SinceEpochIsPosix | src/lib/libc.c:17-64 | That sum is the POSIX formula |
| Calendar.CalendarOrder | src/lib/libc.c:17-64 | It increases strictly with the date |
| Calendar.MktimeIsExact | src/lib/libc.c:54-63 | mktime is exact for just the dates up to 2106-02-07 06:28:15 |
| Calendar.MktimeIncreases | src/lib/libc.c:17-64 | On those dates mktime increases strictly |
| Printf.NumeralRoundTrip | src/kernel/vsprintf.c:18-23 | A numeral has no leading zero and evaluates back to its number, in every base from 2 to 36 |
| Printf.NumeralIsCanonical | src/kernel/vsprintf.c:18-23 | No other digit string without leading zeros stands for that number |
| Printf.NumeralIsShort | src/kernel/vsprintf.c:18-23 | A number below 2^k has at most k digits |
| Printf.Generate | src/kernel/vsprintf.c:18-23 | The digit loop terminates with the text backwards, for numbers of either sign |
| Printf.Reverse | src/kernel/vsprintf.c:24-30 | The in-place loop reverses |
| Printf.I2A | src/kernel/vsprintf.c:6-32 | The buffer holds the text of the number, of either sign, and a NUL, and nothing else has changed |
| Printf.SignedRoundTrip | src/kernel/vsprintf.c:113-119 | A signed numeral evaluates back |
| Printf.PrintDecimal | src/kernel/vsprintf.c:113-119 | The conversion %d, for every 32-bit int |
| Printf.ShadowStandsForNothing | src/kernel/vsprintf.c:20-22 | What comes of a negative number evaluates to no positive one, in any base |
| Printf.DecimalReadsBack | src/kernel/vsprintf.c:113-119 | What %d prints evaluates back exactly if the number is not the least int |
| Printf.HexRoundTrip | src/kernel/vsprintf.c:44-48 | n hexadecimal digits evaluate back to any number below 16^n |
| Printf.U2A | src/kernel/vsprintf.c:37-51 | 0x and exactly eight digits, which evaluate back to the word |

## Left out

- Kernel.Kernel.MsgSend: messages carry the sender, the type and two integers, not all eight words; a message is found by its address in its process's own memory, so that the common address space of the native processes is not modelled.
- Kernel.Kernel.ClockHandler: the tick counter does not wrap, and the counters `runtime`, `kernel_ticks` and `unix_time` are not kept.
- Kernel.Kernel.SysSendRec: sending to ANY or INTERRUPT, and a null message pointer, are outside the contract: the code would index the table out of its range, or write through the pointer.
- IpcRuns.RunKeepsInv: the terminal task makes no IPC call and never sleeps, as its loop does not.
- SchedRuns.BoundedWaiting: clock interrupts that arrive in ring 0 are excluded, as in `WorldTurns.EveryoneGetsATurn`; they charge ticks without rescheduling.
- WorldRuns.NothingStopsTheMachine: callers are the user processes, which call any task but the terminal's, and the file system, which calls the tasks below it; a call is a send and a receive; only the disk task is interrupted. Only forked processes exit: the parent of a native process is no table index. What the processes compute between their calls is arbitrary.
- WorldRuns.WhatStopsARun: the loops of the system task, the disk task and the file system panic on a message that they have no case for; these panics are no moves. A caller may send any message to them, and a disk interrupt that is not waited for may be what the disk task's loop receives.
- A device interrupt inside the handler of another one: the hardware stubs enable interrupts again before they call the handler (src/kernel/asm/trapsa.asm:84 and :140), so that one may arrive inside the clock handler's call of schedule().
- MemoryManager.MemoryManager.DoFork: the requirement that the caller is blocked in its receive stands for the busy wait on that flag; process names and the saved registers are not modelled.
- MemoryManager.MemoryManager.HandleRequest: the changes of the tables that one request makes are applied at once, and its messages and slot releases follow in order, each a move of its own. In the code an exit gives its children to INIT, and clears INIT's WAITING, only after the clean-up's message has been taken; meanwhile nobody but the memory manager looks at these fields.
- MemoryManager.MemoryManager.DoWait: the refusal's STATUS field is not initialised in the code; it is 0 here.
- MemoryManager.MemoryManager.DoExit: the assertion that always fails is reported, and obeyed by its caller; `WorldRuns.CodeNext` stops before the trapped exit's first message, the code after it.
- Segments.AllocMem: only the copied size is checked against the memory size, so no claim is made that a whole 2 MB slot exists.
- The number of process slots is any from 5 to 1024, where the code has 32: the slots' memory must lie below 4 GB.
- FileSystem.FileSystem.ReadFile: starts from a directory entry; path lookup and subdirectories are not modelled. The requests on which the 32-bit arithmetic wraps are covered by lemmas on the check alone. The clusters that are read must lie on the disk, cluster 0, which is read past the end of a chain, included; a chain that ends before the file does is followed past its end only if the table's first entry is an end mark.
- FileSystem.FileSystem.ReadFat: a table of more than 191 sectors, which the code loads past the end of its array, is excluded.
- FileSystem.FileSystem.Mount: a table of more than 191 sectors is excluded as for ReadFat; the fields of the volume boot record and the partition's start are given; parsing them is not modelled.
- Scenarios.TheTrapIsSprung: INIT's program is one that forks and waits; the one in the source stops in an empty loop before it.
- Disk.Drive.HdReadBytes: a read past the end of the disk, drive errors and time-outs are not modelled.
- Printf.PrintDecimal: field widths are not modelled.
- InputBuffer.Ring.Put: one put or get is one step; races inside them are not modelled.
- Terminal.Tty.DoRead: the caller's buffer must have room for all keys that may arrive, as the code does not check; scan codes and function keys are not translated.
- Queue links are kept in arrays of their own beside the table, and a null link is -1.
- Port input and output, interrupt controllers, CMOS, boot assembly, register save and restore, and all tracing output.
- The sleep message of the system task, which nothing sends.
- Directory printing, long file names, and the twelve-hour clock.
