# AlienOS, modelled and verified

AlienOS simulates a small operating system: a priority round-robin CPU, named semaphores with
hand-off, segmented and paged memory with second-chance swapping, a disk served by sweeps and a
print queue.  A UI, a CPU, a disk and a print thread share linked lists.  This project models that
behaviour in Dafny and proves it over whole runs.  `dafny verify dfyconfig.toml` checks everything.

## How the model is built

*The machine.*  `Machine` is one state (PCB, running process, ready queue, semaphores, device
lists, memory, the `new_process` flag) and eight steps: create, take the new-process interrupt,
load a segment, execute one instruction, quantum expiry, finish, disk completion, print completion.
`Scheduler`, `CpuMoves` and `Paging` hold the parts.  `Locations`, `Steps`, `MemoryRuns`,
`Programs`, `Semaphores`, `Exclusion` and `Devices` prove what each step keeps; `Runs` puts it
together into one invariant and reads off what holds in every reachable state; `Termination` proves
that runs end; `PageRuns` follows the page table along runs, and `Fitting` the runs without memory
pressure.  `Effects` says field by field what each step changes, without naming the functions of the
machine; `Quanta`, `Creations` and `UsedBits` draw from it what a dispatch costs, how a creation
interrupts, and that a used segment is passed over.

*The code.*  `Kernel` has the simulator's variables and records as objects with fields, and every
routine of cpu/cpu.c, scheduler/scheduler.c, memory/memory.c and print/print.c as a method that
updates them in place.  Each method's contract equates the new state with the machine's function of
the old one; `Threads` chooses routines the way the thread loops do and shows that each choice is an
enabled step.  So everything `Runs` and `Termination` prove of the machine holds of these routines.

*Sub-models at their own grain.*  `LinkedList` is list/list.c and the sorted inserts on heap
nodes; `ReadyList` ties it to the kernel's ready queue.  `DiskSweep` is the sweep with its saved
successor, with insertions between any two of its actions; `DiskLinks` and `DiskNodes` are the same
list with the `prev` links the code as written leaves, and `DiskSteps` ties the sweep to the
machine.  `Locks` is what every call does to the six host locks and to what they protect, under all
interleavings of any number of threads.  `PageTable` is the page array entry by entry.

`SecondChance` is the choice of the victim, `Records` the records and the scan over them,
`Seqs` what is said of sequences and sums, and `Counterexamples` and `StolenSemaphore` three runs
that show limits of the code.

## Assumptions

- The machine's steps are atomic.  The code is finer: the flag can be cleared just after a creation
  raises it (cpu/cpu.c:139, cpu/cpu.c:207), and a device interrupt can land between a failed P and
  its own interrupt (cpu/cpu.c:89-100).  The locks and the disk sweep are modelled at their real grain.
- A created program has a non-zero priority, a segment that fits in the memory and whose id no live
  process uses, and names in each P and V a semaphore that exists or is in its header
  (`Machine.WellFormed`).
- Only the termination theorems ask for more, of the live processes at the state they start from:
  EXEC operands of at least 1 (cpu/cpu.c:53 tests for equality with 0), priorities from 1 to 5000,
  and segments that fit together.
- `pages` of a program is num_pages, the floor of size over page size (process/process.c:110 divides
  before it rounds up).

## Where the code and its comments disagree

- memory/memory.c:59 walks past free pages although its comment says "first free page".  Both are
  modelled.  `PageTable.LoadAsWritten` shows that as written no load ever takes a free entry, and
  `PageRuns.AccountAsWritten` when the counter is then true over a run; everything else uses the
  search the comment announces, with the bounds test first.
- The sorted inserts set `prev` wrongly: the head insert leaves the old header's `prev` as it was
  (scheduler/scheduler.c:73-78, disk/disk.c:136-141), the middle insert makes the new node its own
  predecessor (scheduler/scheduler.c:98-104, disk/disk.c:161-167).  `LinkedList` proves the inserts as
  written and delete_list for any `prev` links, with the exact condition under which it removes the
  first match and no other.  The lists that only grow by push keep their links under every routine.
  The ready list is only ever searched for a process that is not on it (cpu/cpu.c:279,
  `Runs.FinishDeletesNothing`), so it takes no harm.  The disk list does: `DiskLinks.RightIffHeadServed` says that
  the code as written is right exactly for runs that always serve the header, and `DiskLinks.WrongRun`
  is one that does not, and on nodes ends at a NULL pointer.  `DiskSweep`, `Machine` and `Kernel` keep
  these lists as sequences, which is the repaired behaviour.
- `next_swapped` is never set: memory/memory.c:104 is reached only with a NULL node.  The scan is
  proved for an arbitrary start node; the machine starts it at the header, as the code does.
- Finish unloads unconditionally (cpu/cpu.c:271).  A process that blocked on its last instruction
  and was swapped out gives back pages it no longer has.  The code is kept; `Runs.PageAccount` says
  that the counter is right exactly for runs in which this does not happen,
  `Counterexamples.LeakHappens` gives a run in which it does, and `Fitting.FittingRunsAccount` excludes it
  for programs that fit beside each other.
- A swap victim ends READY even if it was blocked (cpu/cpu.c:316).  The code is kept; no claim says
  that a blocked process is WAITING.
- A V frees a semaphore whoever calls it (cpu/cpu.c:244).  The code is kept;
  `Exclusion.OwnedRunIff` gives the exact condition over runs, and `StolenSemaphore.SemaphoreStolen` a
  run in which two processes hold one semaphore.
- A load preempts its process before the segment is used (cpu/cpu.c:293-303), so large processes can
  evict each other for ever: `Counterexamples.ThrashForever`.

## Model

| member | source | states |
|---|---|---|
| `Scheduler.QueuedInterrupt` | cpu/cpu.c:188-209 | an interrupt neither loses nor duplicates a process on the CPU or in the ready queue: only a blocking one removes the running process |
| `Scheduler.InterruptOk` | cpu/cpu.c:188-209 | after any interrupt only the running process is RUNNING, every queued process is READY, exactly the processes outside the PCB are FINISHED, and the CPU idles only if nobody is ready |
| `Scheduler.FinishOk` | cpu/cpu.c:275-285 | the same after a process has finished and left the PCB |
| `Scheduler.WakeOk` | disk/disk.c:52-58 | making a blocked live process ready keeps everything an interrupt may start from |
| `Scheduler.OrderEnqueue` | scheduler/scheduler.c:56-105 | a sorted insert keeps the queue ordered by priority number and, within one number, by arrival |
| `Scheduler.DispatchesFirst` | scheduler/scheduler.c:15-54 | whoever an interrupt dispatches goes before everybody left queued, the preempted process included; somebody is dispatched exactly if somebody is ready or was preempted |
| `Scheduler.ResumesIff` | scheduler/scheduler.c:21-49 | a preempted process keeps the CPU if and only if its number is strictly smaller than every ready one's |
| `CpuMoves.MoveOk` | cpu/cpu.c:129-186 | every move on the CPU side (interrupt, blocked P, wake-up, completion, load, create, EXEC unit, granted P, finish) keeps statuses true and the CPU busy while somebody is ready |
| `CpuMoves.MoveOrder` | scheduler/scheduler.c:56-105 | every such move keeps the ready queue in order |
| `CpuMoves.MoveDispatchesFirst` | scheduler/scheduler.c:27-49 | every move that runs the scheduler dispatches the first of the order |
| `CpuMoves.MoveQuantum` | scheduler/scheduler.c:45-47 | every move keeps remaining_time equal to the quantum less the units run and 200 for each semaphore acquired in this dispatch |
| `CpuMoves.MoveSince` | cpu/cpu.c:242-265 | a process that waits keeps its arrival time through every move that does not wake it |
| `SecondChance.VictimIsFirstClear` | memory/memory.c:75-101 | the victim is the clear-bit segment nearest in circular order from an arbitrary start node, only those in front of it are skipped; if all bits are set, a full circle ends at the start node |
| `SecondChance.ClearedMeans` | memory/memory.c:89-100 | a bit survives the scan exactly if it was set, some bit was clear, and its segment lies behind the victim |
| `Records.Scan` | memory/memory.c:75-101 | the circular loop on the segment objects finds that victim, clears exactly the skipped bits, touches nothing else, and inspects one segment more than it skips, at most n+1 |
| `Paging.UnloadOk` | memory/memory.c:181-192 | an unload keeps present bits equal to list membership and removes exactly the segment; the page counter drifts by the pages of a segment that was absent |
| `Paging.SwapOk` | memory/memory.c:75-105 | a swap evicts exactly the victim, keeps sizes, bits and the page account |
| `Paging.SwapMeans` | memory/memory.c:75-105 | in terms of the list and the bits alone: the first segment with a clear bit goes, those in front of it lose their bit, all others keep theirs; if all are set the header goes and all lose theirs |
| `Paging.MakeRoomOk` | memory/memory.c:156-160 | the swapping loop keeps bits and account, and the resident list loses exactly the evicted segments, all of them resident before |
| `Paging.RoomIff` | memory/memory.c:156-160 | with a true counter the loop finds room if and only if the segment is no larger than the memory; a counter that is too high never stops it |
| `Paging.EvictsNoMore` | memory/memory.c:158-160 | the loop evicts at most every segment, and before each eviction the space did not suffice |
| `Paging.SwapsAt` | memory/memory.c:158-160 | the k-th swap of a load evicts the k-th of the evicted |
| `Paging.PlaceOk` | memory/memory.c:162-166 | a load adds exactly the loaded segment to the list, with its present bit and its pages |
| `PageTable.Table.constructor` | memory/memory.c:136-149 | a fresh table is all free, numbered, and its counter is NUM_PAGES |
| `PageTable.Table.DeletePage` | memory/memory.c:10-27 | frees the first entry of the segment, or none if there is none; the counter rises either way |
| `PageTable.Table.AddPage` | memory/memory.c:55-70 | with the search its comment announces: takes the first free entry, if any; the counter falls either way |
| `PageTable.Table.FindPageAsWritten` | memory/memory.c:56-61 | the search as written never ends at a free entry of the table |
| `PageTable.LoadAsWritten` | memory/memory.c:55-70 | as written, loading any number of pages leaves the number of free entries unchanged, for every table; the counter stays true if and only if the segment has no pages |
| `PageTable.AddMeans` | memory/memory.c:55-70 | entry by entry: the first free one becomes the segment's, numbered by its place, and no other changes |
| `PageTable.DeleteMeans` | memory/memory.c:10-27 | entry by entry: the first one in use by the segment becomes free, and no other changes |
| `PageTable.Table.LoadSegment` | memory/memory.c:169-179 | one page after the other, `numPages` times, and the counter falls by as many |
| `PageTable.Table.UnloadPages` | memory/memory.c:181-184 | one entry of the segment after the other, `numPages` times |
| `PageTable.AddCounts` | memory/memory.c:55-70 | with a free entry, the segment gains one entry, the free ones lose it, all others keep theirs |
| `PageTable.DeleteCounts` | memory/memory.c:10-27 | a segment that has an entry gives exactly one back |
| `PageTable.AddManyCounts` | memory/memory.c:169-179 | a load that finds room gives its segment exactly its pages out of the free ones |
| `PageTable.DeleteManyCounts` | memory/memory.c:181-184 | an unload frees exactly the pages of its segment and nobody else's |
| `PageTable.FreeEntries` | memory/memory.c:139-146 | if every resident segment owns its pages, the free entries are NUM_PAGES less the resident pages |
| `PageTable.BackedUnload` | memory/memory.c:181-192 | an unload keeps every remaining resident segment in possession of exactly its pages |
| `PageTable.BackedEvict` | memory/memory.c:156-160 | so does the swapping loop |
| `PageTable.BackedPlace` | memory/memory.c:156-167 | so does a load, once the counter is true and the space suffices |
| `PageRuns.BackedStep` | memory/memory.c:156-192 | every step with a true counter keeps every resident segment in possession of its pages |
| `PageRuns.TableRun` | memory/memory.c:156-192 | along every run that leaks nothing, the counter equals the number of free entries and NUM_PAGES less the resident pages, and each resident segment owns exactly its pages |
| `PageRuns.PagesConserved` | memory/memory.c:136-192 | the same for every such run from the initial state over an empty table |
| `PageRuns.AccountAsWritten` | memory/memory.c:55-70 | with the search as written no run takes an entry of an empty table, so the counter is the number of free entries if and only if the resident segments have as many pages as the run leaked |
| `Locations.PlacedStep` | cpu/cpu.c:188-286 | every step keeps each live process in exactly one place and all others nowhere |
| `MemoryRuns.LoadedStep` | cpu/cpu.c:267-319 | every step keeps present bits equal to list membership, and moves the counter off the true count by exactly its leak |
| `Programs.TextsStep` | cpu/cpu.c:145-162 | a step runs one instruction, or one EXEC unit, of the running process and of nobody else |
| `Programs.ExecConserved` | cpu/cpu.c:43-63 | in every run, remaining operand plus `exec` is the operand as read at a current EXEC, `exec` is 0 elsewhere, and at its end a process has run the sum of its EXEC operands and its text is restored |
| `Semaphores.WaitsOnce` | cpu/cpu.c:236-237 | a process waits at one place of one wait list |
| `Semaphores.SemsRelease` | cpu/cpu.c:242-265 | a hand-off makes the longest-blocked process owner, leaves the rest in order, and frees the semaphore if nobody waits; the wait lists stay in order |
| `Semaphores.SemsStep` | cpu/cpu.c:227-265 | every step keeps: waiters imply an owner, never include it, and stand in the order in which they blocked |
| `Semaphores.NamesStep` | process/process.c:79-100 | a declared semaphore stays found at the same place |
| `Semaphores.DeclareMeans` | process/process.c:79-100 | after the semaphore line a name exists exactly if it did before or is listed; what is added is free, listed, new and added once; what was there is untouched |
| `Semaphores.KnownCreate` | process/process.c:79-100 | every P and V of a new program then finds its semaphore |
| `Exclusion.ReleaseKeepsOwnedIff` | cpu/cpu.c:242-265 | a V keeps "granted and not released means owner" if and only if no other process was granted that semaphore |
| `Exclusion.OwnedRunIff` | cpu/cpu.c:105-120 | throughout a run "granted and not released means owner" holds if and only if no V of the run releases a semaphore that another process holds |
| `Exclusion.MutualExclusion` | cpu/cpu.c:81-120 | in every such run at most one process is between a granted P of a semaphore and its V |
| `StolenSemaphore.SemaphoreStolen` | cpu/cpu.c:242-265 | a run from the initial state in which a V by a non-owner lets two live processes hold one semaphore |
| `Devices.DiskStep` | disk/disk.c:64-72 | the disk list gains exactly the requests READ and WRITE make, loses exactly the one served, and stays sorted by track |
| `Devices.PrintStep` | print/print.c:40-91 | the print list is a queue: each PRINT appends one request, each completion serves the oldest, whose id is the number served so far |
| `Runs.SoundStep` | cpu/cpu.c:129-186 | one invariant (places, statuses, order, quantum, texts, semaphores, devices, memory) is kept by every step of every thread |
| `Runs.SoundRun` | cpu/cpu.c:129-186 | and so by every run |
| `Runs.LocationPartition` | cpu/cpu.c:188-286 | in every reachable state each live process occurs exactly once across CPU, ready queue, wait lists, disk and print lists; a process outside the PCB occurs nowhere and is FINISHED |
| `Runs.StatusAndWork` | cpu/cpu.c:188-225 | in every reachable state exactly the running process is RUNNING, queued ones are READY, and an idle CPU means an empty queue or a pending creation |
| `Runs.DispatchOrder` | scheduler/scheduler.c:15-54 | from every reachable state, a step that runs the scheduler dispatches the longest-queued process of least priority number |
| `Runs.QuantumBound` | scheduler/scheduler.c:45-47 | in every reachable state remaining_time is the quantum less units and 200 for each semaphore, within -199..q, so no dispatch consumes more than q+199 |
| `Effects.RecordStep` | cpu/cpu.c:129-339 | after every step, the status, quantum left, priority and arrival of every process, read off the source; a step that runs the scheduler gives whoever it dispatches 5000/priority, and no other step changes who runs |
| `Effects.NewRecord` | cpu/cpu.c:211-218 | a created process has its program's priority, is READY and arrived now |
| `Effects.FlagStep` | cpu/cpu.c:204-224 | new_process after every step: raised by a creation, cleared by every interrupt, untouched by a finish and all else |
| `Effects.MemStep` | memory/memory.c:181-192 | the memory after every step but a load: which bits, which place of the list, which count |
| `Effects.LoadMem` | cpu/cpu.c:288-296 | the memory after a load: swaps until the space suffices and no more, then the segment present at the end of the list and its pages taken |
| `Effects.TextStep` | cpu/cpu.c:43-120 | the program counter, operands, EXEC count and semaphores held of every process after every step |
| `Effects.SemStep` | cpu/cpu.c:227-265 | owner and wait list of every semaphore after every step |
| `Effects.PcbStep` | cpu/cpu.c:211-286 | the PCB after every step |
| `Effects.RequestStep` | disk/disk.c:119-168 | the disk list after every step: a request joins behind all of its track or smaller, the one served leaves |
| `Quanta.InstructionCosts` | cpu/cpu.c:49-97 | an EXEC unit costs its process 1 of its quantum, a granted P 200, any other instruction that keeps the CPU nothing, and nobody else is charged |
| `Quanta.DispatchAccount` | cpu/cpu.c:145-162 | between two dispatches what is left falls by exactly the EXEC units the process runs and 200 a grant, and it runs no more units than it had left |
| `Quanta.DispatchFills` | scheduler/scheduler.c:43-49 | whoever a step dispatches starts with 5000/priority |
| `Quanta.WholeDispatch` | cpu/cpu.c:145-184 | in a whole dispatch at most its quantum in EXEC units and 199 more with the semaphores, and no quantum interrupt before the quantum is used up |
| `Quanta.FinishesComplete` | cpu/cpu.c:173-177 | a process that finishes has run all its instructions and all its EXEC units |
| `Creations.CreateAnnounces` | cpu/cpu.c:211-225 | a creation raises the flag and queues the new process, whether or not the CPU is busy |
| `Creations.CreationInterrupts` | cpu/cpu.c:135-151 | from a creation on no load and no instruction happens until the scheduler runs, and the next step other than a creation dispatches the new process or one that goes before it |
| `UsedBits.ExecutingMarks` | cpu/cpu.c:156 | an executed instruction sets the used bit of its process's segment and no other |
| `UsedBits.SwapTakes` | memory/memory.c:81-101 | a swap takes a used bit exactly from the victim and those in front of it, or from all if all are set |
| `UsedBits.UsedNotVictim` | memory/memory.c:84-92 | while some resident bit is clear no swap evicts a segment whose bit is set |
| `UsedBits.UsedRun` | memory/memory.c:75-105 | over runs, a used segment stays used until a scan takes its bit or it is unloaded |
| `UsedBits.SecondChanceGiven` | memory/memory.c:72-101 | together: a segment that executed, and whose bit no scan has taken since, is not evicted while some resident bit is clear |
| `Runs.SemaphoreProtocol` | cpu/cpu.c:227-265 | in every reachable state waiters imply an owner, are distinct, exclude the owner and stand in blocking order |
| `Runs.SemaphoreFound` | cpu/cpu.c:85-111 | every P or V about to be executed finds its semaphore |
| `Runs.SemaphoreNamesApart` | process/process.c:85-99 | in every reachable state no two semaphores share a name |
| `Runs.LoadFindsRoom` | memory/memory.c:156-160 | from every reachable state every load finds room: the scan never meets an empty list |
| `Runs.FinishDeletesNothing` | cpu/cpu.c:277-280 | in every reachable state the running process is not queued, so the delete from the ready list at a finish finds nothing |
| `Runs.CpuNeverStuck` | cpu/cpu.c:129-186 | with a process on the CPU the CPU thread has a step |
| `Runs.PageAccount` | cpu/cpu.c:267-272 | along every run the counter drifts by exactly what finishing while swapped out leaks; it is true after a run if and only if nothing leaked |
| `Runs.PresentIffResident` | memory/memory.c:181-192 | in every reachable state present_bit is set exactly on the members of the segment list |
| `Termination.FitsAlready` | memory/memory.c:156-160 | when all live segments fit together a load evicts nobody, whatever leaked before |
| `Termination.CalmStep` | cpu/cpu.c:129-186 | states in which the live processes are proper and fit together only lead to such states, until a creation |
| `Termination.TodoStep` | cpu/cpu.c:43-126 | an instruction or EXEC unit, a completion and a finish each take exactly one from what is to do; scheduling, loading and preemption nothing |
| `Termination.RankStep` | cpu/cpu.c:129-186 | every step but a creation lowers the measure (work, then absent processes, then pending flag and expired quantum) |
| `Termination.RunBound` | cpu/cpu.c:129-186 | from every such state every run without creations, whatever the interleaving, is at most as long as the measure |
| `Termination.QuiescentMeans` | cpu/cpu.c:129-186 | where no thread can go on, every process has finished or waits for a semaphore that somebody owns |
| `Termination.RunsEnd` | cpu/cpu.c:129-306 | both, after any run from the start, with memory pressure and leaks in its past or not, once the live processes are proper and their segments fit together |
| `Fitting.NoLeak` | cpu/cpu.c:271-272 | nobody finishes while swapped out if everything has fitted since the start |
| `Fitting.FittingRunsAccount` | memory/memory.c:136-192 | a run whose programs have an instruction and fit beside those alive at their creation leaks nothing, and the page account holds |
| `DiskSweep.ActKeeps` | disk/disk.c:83-168 | every action of the sweep and every insertion at any point keeps the list sorted, everything ahead of the cursor at strictly smaller tracks, and each request listed or served once |
| `DiskSweep.FulfillRemovesServed` | disk/disk.c:64-72 | on the list with its `prev` links repaired, delete by track removes exactly the request just served, whatever tracks repeat and whenever requests are inserted |
| `DiskSweep.SweepNeverStuck` | disk/disk.c:83-107 | the saved successor is always still listed: until it ends, a sweep can go on |
| `DiskSweep.ServedBySweepEnd` | disk/disk.c:83-117 | between sweeps, every request on a track below 200 that was made before the last sweep started has been served: so each is served in the sweep it was inserted in or the next |
| `DiskSweep.ServedByRunEnd` | disk/disk.c:83-168 | of any run: a request for a track below 200 inserted at any point is served once a later sweep has started and none is under way |
| `DiskSweep.ExactlyOnce` | disk/disk.c:64-72 | every request made is listed or served, never both, never twice, and no other is |
| `DiskSweep.SweepAscends` | disk/disk.c:83-107 | served tracks never decrease within a sweep, only its last may be 200 or more, and its times sum to 100 times the last track plus 5000 a request |
| `DiskSweep.DiskThread.AddRequest` | disk/disk.c:119-168 | the search loop inserts behind every request for the same or a smaller track |
| `DiskSweep.DiskThread.FetchNext` | disk/disk.c:91-101 | the unlocked half of an iteration |
| `DiskSweep.DiskThread.FulfillRequest` | disk/disk.c:103-106 | the locked half |
| `DiskSweep.DiskThread.Iterate` | disk/disk.c:90-107 | one iteration with arbitrary insertions in both gaps keeps the invariant |
| `DiskSweep.DiskThread.Sweep` | disk/disk.c:83-108 | the whole loop ends, serves everything listed at its start, and accounts for its time |
| `DiskLinks.RightAtHeader` | disk/disk.c:64-72 | as written, where all deletes so far were right, the delete of the request in hand is right exactly if it is the header |
| `DiskLinks.FulfillRightIff` | disk/disk.c:64-72 | the same after every run of the code as written, under any interleaving |
| `DiskLinks.RightIffHeadServed` | disk/disk.c:83-168 | a whole run of the code as written deletes exactly what it serves if and only if it always serves the header |
| `DiskLinks.InsertKeepsFront` | disk/disk.c:119-168 | an insertion leaves the sweep at the front of the list if and only if it goes behind the request in hand and the next |
| `DiskLinks.RightWhenNoneAhead` | disk/disk.c:83-168 | so a run without insertions ahead of the sweep is right as written |
| `DiskLinks.WrongRun` | disk/disk.c:135-141 | the run that is not: a request for track 30 arrives while track 50 is served, whose node is then neither header nor linked back |
| `DiskNodes.InsertNode` | disk/disk.c:119-168 | on heap nodes, the insert as written leaves the links `DiskLinks` says |
| `DiskNodes.FulfillNode` | list/list.c:54-81 | on heap nodes, the delete is right exactly when `DiskLinks` says, leaves the links it says, and dereferences NULL exactly for a request behind the header whose `prev` is NULL |
| `DiskNodes.FulfillAhead` | list/list.c:70-72 | after that run the fulfilment dereferences NULL |
| `DiskSteps.FulfilIsServe` | disk/disk.c:64-78 | a fulfilment of the sweep is the machine's completion at the position of the request in hand, and the only one the machine allows on that track |
| `DiskSteps.RequestIsInsert` | disk/disk.c:170-182 | a READ or WRITE of the machine is an insertion of the sweep |
| `DiskSteps.OthersAlike` | disk/disk.c:83-107 | all other actions and steps leave the list |
| `LinkedList.List.Push` | list/list.c:14-35 | appends, keeping the chain, `tail` and, if they were right, the `prev` links |
| `LinkedList.List.Pop` | list/list.c:83-96 | takes the first node, NULL on an empty list |
| `LinkedList.List.Find` | list/list.c:37-52 | the first node that matches, or NULL |
| `LinkedList.List.Delete` | list/list.c:54-81 | whatever the `prev` links: removes exactly the first match if and only if there is none, it is the header, or its `prev` is its predecessor; else dereferences NULL exactly if that is NULL, cuts back to an earlier node, or unlinks nothing; all other links stay but the one it sets |
| `LinkedList.List.LastNotLarger` | scheduler/scheduler.c:80-93 | the search ends at the last node of an equal or smaller key |
| `LinkedList.List.AddSorted` | scheduler/scheduler.c:56-105 | as written: the value lands behind all equal and smaller keys, `next` chain and `tail` stay right, no other value or `prev` changes; the `prev` links stay right if and only if the value was appended |
| `LinkedList.List.Splice` | disk/disk.c:158-167 | the last branch as written: the new node's `prev` is right at the end of the list and points at the node itself in the middle |
| `LinkedList.List.PutFirst` | disk/disk.c:135-141 | the head branch as written loses the old header's `prev` |
| `LinkedList.SortedInsert` | scheduler/scheduler.c:56-105 | that place keeps a sorted list sorted, in front of exactly the larger keys |
| `LinkedList.List.InsertThenDelete` | list/list.c:54-81 | after an insert as written into a list with right links, delete_list removes exactly the first match unless that is the value behind the new one, or the new one between two others; what happens then |
| `LinkedList.List.AddRepaired` | scheduler/scheduler.c:56-105 | with the following node's `prev` set, the insert keeps all links right |
| `Kernel.Kernel.constructor` | memory/memory.c:136-154 | the initial variables stand for the machine's initial state over an empty table |
| `Kernel.Kernel.FindSlot` | scheduler/scheduler.c:80-93 | the search loop finds the model's place |
| `Kernel.Kernel.AddProcessScheduler` | scheduler/scheduler.c:56-105 | new state is the model's sorted enqueue of the old |
| `ReadyList.Enqueue` | scheduler/scheduler.c:56-105 | the process lands in the ready queue behind all of equal or smaller number |
| `ReadyList.AddToBoth` | scheduler/scheduler.c:56-105 | a list of nodes that holds the ready queue holds it again after the insert on nodes and the insert of `Kernel` |
| `ReadyList.ForwardBoth` | scheduler/scheduler.c:15-54 | and after a whole forward_scheduling, insert and pop |
| `Kernel.Kernel.ForwardScheduling` | scheduler/scheduler.c:15-54 | new state is the model's requeue and dispatch of the old |
| `Kernel.Kernel.ProcessInterrupt` | cpu/cpu.c:188-209 | new state is the model's interrupt of the old, blocking for the semaphore, disk-request and print-request kinds only |
| `Kernel.Kernel.ExecOn` | cpu/cpu.c:43-63 | one unit of an EXEC on the segment and the program counter, with the operand put back at the end |
| `Kernel.Kernel.FindSemaphore` | list/list.c:37-52 | the search finds the model's semaphore |
| `Kernel.Kernel.SemaphoreP` | cpu/cpu.c:227-240 | granted exactly if free or owned by the caller; otherwise the caller queues last |
| `Kernel.Kernel.ExecuteP` | cpu/cpu.c:81-103 | new state is the model's P |
| `Kernel.Kernel.SemaphoreV` | cpu/cpu.c:242-265 | new state is the model's hand-off, or no owner |
| `Kernel.Kernel.ExecuteV` | cpu/cpu.c:105-120 | new state is the model's V |
| `Kernel.Kernel.AddDiskRequest` | disk/disk.c:119-168 | new state has the request at the model's place |
| `Kernel.Kernel.AddPrintRequest` | print/print.c:40-52 | the request gets the next id and the last place |
| `Kernel.Kernel.Requisition` | cpu/cpu.c:321-339 | interrupt first, then the request: new state is the model's |
| `Kernel.Kernel.ProcessInstruction` | cpu/cpu.c:39-127 | new state is the model's execution of the current instruction, for all six opcodes |
| `Kernel.Kernel.FindProcess` | memory/memory.c:32-50 | the owner in the PCB, NULL exactly if it is not there |
| `Kernel.Kernel.ScanSegments` | memory/memory.c:75-101 | victim and used bits are the model's, scanning from the list header |
| `Kernel.Kernel.Evict` | memory/memory.c:84-88 | the owner is found and its segment unloaded, its status ends READY |
| `Kernel.Kernel.SwapSegment` | memory/memory.c:75-105 | new memory is the model's swap, the victim's owner ends READY, and its pages leave the table |
| `Kernel.Kernel.SwapUntil` | memory/memory.c:156-160 | the loop ends, with memory, statuses and page table of the model |
| `Kernel.Kernel.LoadRequisition` | memory/memory.c:156-167 | swaps, pages and list of the model |
| `Kernel.Kernel.MemoryLoad` | cpu/cpu.c:288-306 | new state is the model's load step |
| `Kernel.Kernel.DeleteSegment` | list/list.c:54-81 | delete by segment id removes the first match |
| `Kernel.Kernel.UnloadSegment` | memory/memory.c:181-192 | new memory is the model's unload, and the segment's pages leave the table |
| `Kernel.Kernel.MemoryUnload` | cpu/cpu.c:308-319 | the same, and the owner's status ends READY whatever it was |
| `Kernel.Kernel.ProcessFinish` | cpu/cpu.c:267-286 | new state is the model's finish step, unloading unconditionally |
| `Kernel.Kernel.DeclareSemaphores` | process/process.c:79-100 | unknown names are added free, known ones left alone |
| `Kernel.Kernel.NewProcess` | process/process.c:102-115 | the new records: absent, unused, READY, at the first instruction |
| `Kernel.Kernel.ProcessCreate` | cpu/cpu.c:211-225 | new state is the model's creation, flag raised |
| `Kernel.Kernel.DeleteRequest` | list/list.c:54-81 | delete by track removes the first request of the track |
| `Kernel.Kernel.FulfillDisk` | disk/disk.c:64-78 | new state is the model's disk completion |
| `Kernel.Kernel.FulfillPrint` | print/print.c:68-91 | new state is the model's print completion |
| `Threads.CpuTurn` | cpu/cpu.c:129-186 | from every sound state, the CPU thread's next pass is an enabled step of the machine on all variables and on the page table, and it waits only if nobody runs and nobody is new |
| `Threads.RunTurn` | cpu/cpu.c:145-184 | with a process on the CPU: load, instruction, finish or quantum interrupt, as the machine allows |
| `Threads.CreateTurn` | cpu/cpu.c:211-225 | the UI thread's creation is the machine's |
| `Threads.DiskTurn` | disk/disk.c:64-78 | the disk thread's completion is the machine's |
| `Threads.PrintTurn` | print/print.c:93-100 | the print thread serves exactly if something is pending, and then takes the machine's step |
| `Locks.CallsOrdered` | cpu/cpu.c:28-32 | every call of every thread acquires each lock above all it holds (disk < interrupt < scheduler, process < log; print alone), changes each shared object under its lock, releases what it took, and ends without locks |
| `Locks.CallsChange` | cpu/cpu.c:188-339 | which shared objects each call changes, how often and in which order |
| `Locks.CallsSections` | scheduler/scheduler.c:15-54 | in which critical sections those changes stand: forward_scheduling is one section, an interrupt is one, and a disk request is served in one |
| `Locks.SafeStep` | log/log.c:15-27 | every interleaving keeps: no lock held twice, every thread on its way to holding none |
| `Locks.SomebodyMoves` | disk/disk.c:103-106 | a busy thread leads to one that can go on, along ever higher locks |
| `Locks.NoDeadlock` | scheduler/scheduler.c:15-54 | after any run of any number of threads: mutual exclusion, no lock held between calls, and if a thread is inside a call some thread inside a call can go on |
| `Locks.ChangesExclude` | scheduler/scheduler.c:15-54 | in every interleaving a thread at a change of a shared object holds its lock, and no two threads are at changes of one object together |
| `Locks.ChangesUnderLock` | cpu/cpu.c:216-219 | which lock that is: the scheduler's for the ready list and the running process, the process lock for the flag, those of the devices for their lists, the log's for the log, the interrupt lock for the status change of an interrupt |
| `Locks.CallsComplete` | print/print.c:49-90 | without new calls every maximal interleaving is exactly as long as the lock operations left: all calls complete |
| `Counterexamples.LeakHappens` | cpu/cpu.c:267-272 | a run from the initial state after which the counter is NUM_PAGES too high |
| `Counterexamples.ThrashOn` | cpu/cpu.c:288-306 | two absent-in-turn processes of the size of the memory evict each other by loads alone |
| `Counterexamples.ThrashForever` | cpu/cpu.c:288-306 | so runs of any length execute no instruction |
| `Counterexamples.ThrashReachable` | cpu/cpu.c:145-154 | and the simulator gets there from its initial state |

## Left out

- Kernel.Kernel.AddProcessScheduler: inserts into a sequence, not into linked nodes; `LinkedList.List.AddSorted` has the nodes, and `ReadyList.AddToBoth` shows that the two agree.
- Kernel.Kernel.AddDiskRequest: inserts into a sequence too; the node level is the same `LinkedList.List.AddSorted` with tracks as keys.
- Kernel.Kernel.ProcessFinish: does not model that the segment is freed while others may still point at it.
- LinkedList.List.Delete: does not model that the unlinked node is freed, so a `prev` that leads to it still leads to its record.
- DiskSweep.FulfillRemovesServed: holds of the list with its `prev` links repaired; `DiskLinks.RightIffHeadServed` says when the code as written does the same.
- DiskSweep.DiskThread.AddRequest: inserts into a sequence; `DiskNodes.InsertNode` has the nodes and their links as written.
- DiskSweep.DiskThread.FulfillRequest: deletes from a sequence; `DiskNodes.FulfillNode` has the nodes and their links as written.
- Kernel.Kernel.DeleteRequest: deletes from a sequence, the repaired behaviour; as written it is `DiskNodes.FulfillNode`.
- Kernel.Kernel.FulfillDisk: the same.
- PageTable.Table.AddPage: states the search the comment announces; the search as written is `PageTable.Table.FindPageAsWritten`, and what becomes of the counts is `PageTable.LoadAsWritten`.
- PageTable.Table.LoadSegment: loads with that search.
- PageTable.AddCounts: counts for that search.
- PageTable.AddManyCounts: counts for that search.
- PageTable.BackedPlace: holds with that search.
- PageRuns.BackedStep: holds with that search.
- PageRuns.TableRun: holds with that search and for runs that leak nothing, because after a leak the counter promises pages the table does not have; as written it is `PageRuns.AccountAsWritten`.
- PageRuns.PagesConserved: the same.
- Kernel.Kernel.LoadRequisition: loads with that search.
- Kernel.Kernel.MemoryLoad: loads with that search.
- Exclusion.MutualExclusion: holds for runs in which no V releases a semaphore another process holds, because the code lets anyone release; the condition is exact for ownership (`Exclusion.OwnedRunIff`).
- Termination.RunsEnd: asks that the live segments fit in memory together, because under memory pressure runs need not end (`Counterexamples.ThrashForever`).
- LinkedList.List.AddRepaired: is the insert with the missing link set, which the code does not do.
- Machine steps at a finer grain: the window in which `new_process` is cleared after a create, and a device interrupt between a failed P and its interrupt.
- The status WAITING of a blocked process: a swap makes it READY.
- What the host locks do not protect: the PCB, the semaphore list, the segment list and most status changes are changed without a lock, and the loops read the flag and the list headers without one; `Locks` speaks of the changes made under locks.
- Log messages and their text (log/log.c), except for the log lock.
- The UI (ui/main-window.c, ui/utils.c): drawing and keyboard input.
- Reading program files (process/process.c): a program arrives as a record.
- Thread creation, `sleep`, busy waiting and the numeric semaphore interface: atomic steps, and binary locks in `Locks`.
- The `dirty_bit`, process names, request types: written, never read for a decision.
- Machine integers: counters and operands are unbounded; a load only takes pages the counter holds (`Runs.LoadFindsRoom`).
- `compare_*`, `init_*`, `free_list`, `get_opcode_string`: key equality and initial states.
- Memory allocation and the lifetime of freed nodes.
