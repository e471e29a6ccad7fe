# BladePSGI, modelled and proved in Dafny

BladePSGI is a process supervisor. An overseer forks workers, auxiliary
processes and one monitor, then loops over select() on a self-pipe and
waitpid(), while signal handlers set flags and write to the pipe. All processes
share one 4096-byte segment that holds an exit flag, a request counter, one
status byte for each worker, and named semaphores and atomic integers.

The project has two halves that meet in the shared record.

*The supervision protocol.*

| file | content |
|---|---|
| PidTables.dfy | the three pid tables: functions on their value, and the class that searches and edits them in place |
| Supervisor.dfy | the protocol as a step system: overseer steps, handler runs, child events and outside signals, in every interleaving |
| SupervisorInvariants.dfy | what every step keeps |
| SupervisorTheorems.dfy | what follows for every run from the start of the program |
| Scenarios.dfy | concrete runs: three that refute tempting claims, one with a handler inside the drain loop, and an infinite one that meets every hypothesis of the termination theorem |
| BrokenPipe.dfy | where a pending SIGQUIT comes from, and what a broken self-pipe costs |
| Shutdown.dfy | infinite runs: a requested shutdown ends exactly when the children do |
| Requests.dfy | every handled request is answered by a broadcast and leads to exit(0) |
| OverseerProgram.dfy | the overseer's own code (start-up, handler, drain loop, flag tests, waitpid loop, one whole pass of the main loop) as methods, each proved to be a run of the step system |
| Startup.dfy | signal masks and handlers from fork() to the main loop |
| ProcessTitle.dfy | the process title written over the argument strings |

*The shared segment.*

| file | content |
|---|---|
| Segment.dfy | layout, 64-bit integers as bytes, non-overlapping stores |
| Allocator.dfy | the bump allocator and the name registries |
| SharedMemory.dfy | the class over an array of bytes, each method proved to be one operation on a record |
| SegmentRuns.dfy | whole runs of operations by any processes |
| WorkerPool.dfy | the workers' loops and the monitor's scan, interleaved, over that record |
| WorkerProgram.dfy | one worker iteration, callback included, as a method over the segment object |
| Report.dfy | the monitor's statistics text |

In the step systems every source of choice is an argument of the action, so a
run is a sequence of actions, `Can` says when an action is possible and `Do`
what it does. History fields (`seen` in Supervisor, the per-worker counts in
WorkerPool) record what happened; no step depends on them, and `TraceOf` shows
that they agree with the actions of the run.

Six claims one might make about the code turn out to be false. In each case the
model follows the code, a concrete input shows the failure, and the exact
condition is proved as an if and only if:

* "exit(0) means the shutdown request came before the first child was reaped":
  refuted by `CleanExitAfterUnaskedDeath`; `RequestBeforeReapIff` shows that in a
  run ending with exit(0) it holds exactly when the first request was not handled
  between waitpid() and the test of the shutdown flag, and that the one child
  reaped earlier is then the one being looked at.
* "two smart shutdowns means fast shutdown" (comment at src/bladepsgi.cpp:721):
  refuted by `SecondTermCanBeLost`; `TwoSmartMeansFastIff` shows that it holds
  exactly when both SIGTERMs were handled with the smart flag clear.
* "the overseer never leaves a worker or monitor running without having sent it
  a SIGQUIT": refuted by `BrokenPipeAbandonsChildren`, where the handler's
  write() fails and it calls _exit(3). `ExitLeavesNobodyRunning` proves it of
  every other exit, and `BrokenPipeSparesNobodyIff` of that one exactly when a
  SIGQUIT broadcast was completed before or one under way has struck everyone
  still alive. Only the overseer's own kill() calls are meant: a worker or
  auxiliary that has set its parent-death signal gets one from the kernel.
* "UnblockSignals undoes BlockSignals": refuted by
  `NestedUnblockOpensTheOuterMask`; exact rule `UnblockUndoesBlockIff`. The
  program only uses depth one, where it holds.
* "any worker count accepted on the command line fits the status array":
  `StatusArrayFitsIff` shows that it does exactly up to 2048.
* "the statistics text can be read back": refuted by `NewlineInNameIsAmbiguous`;
  `ReadableIff` shows that a class of names keeps it readable exactly when none
  of them contains ": ", a number, and the start of another line.

## Model

| member | source | states |
|---|---|---|
| PidTables.VerdictOfWellFormed | src/bladepsgi.cpp:588-637 | with accurate tables the abort() is dead, the unknown-child branch is taken only for a pid that no table holds, and a recorded child's death is expected exactly when shutdown has been requested; an unexpected one is reported as the worker, the monitor, or the auxiliary whose pid it is, by its own name |
| PidTables.ForgetRemoves | src/bladepsgi.cpp:591-631 | erasing a reaped pid removes that pid from the recorded set, nothing else, and leaves the tables free of duplicates |
| PidTables.NameFound | src/bladepsgi.cpp:607-618 | the search for an auxiliary's name succeeds exactly when some requested process has that pid, and gives the name of the first that does |
| PidTables.ProcessTable.HandleChildProcessDeath | src/bladepsgi.cpp:588-637 | the in-place search and erase give the specified verdict, and change the tables only for an expected death |
| PidTables.ProcessTable.KillProcessGroup | src/bladepsgi.cpp:115-124 | the kill() calls made are the workers in order and then the monitor, each once, and no auxiliary |
| PidTables.ProcessTable.RecordAuxiliary | src/bladepsgi.cpp:434-453 | a pid is recorded for an auxiliary once; a second SetPID fails before anything is pushed |
| SupervisorInvariants.StepKeeps | src/bladepsgi.cpp:639-755 | every step of every process keeps accounting, table completeness, fork/wait bookkeeping, wake-ups, broadcast reach and escalation |
| SupervisorInvariants.RunKeeps | src/bladepsgi.cpp:639-755 | the same for every run |
| SupervisorInvariants.TargetsAreNotAuxiliaries | src/bladepsgi.cpp:115-124 | among the unreaped children a broadcast's targets are exactly the workers and the monitor |
| SupervisorTheorems.HandlerRunsIff | src/bladepsgi.cpp:642-659 | in every reachable state of a running overseer, wherever its main program is (inside the drain loop, a broadcast or the waitpid loop included), an arriving signal can be handled at once exactly when UnblockSignals() is behind it and the signal was not blocked at the start |
| SupervisorTheorems.HandlerEffect | src/bladepsgi.cpp:42-86 | what that handler leaves: the flags, one byte in the pipe unless it is full, the main program where it was; for SIGQUIT every live worker and the monitor with a SIGQUIT, and the overseer gone |
| SupervisorTheorems.NoLostWakeup | src/bladepsgi.cpp:665-753 | whenever the overseer is about to block in select(): a set fast flag means a readable pipe, an unreaped dead child means a readable pipe or a pending SIGCHLD, and a smart flag behind an empty pipe means everyone already has a SIGQUIT; full pipes included, and handlers between any two steps, as HandlerRunsIff shows possible |
| SupervisorTheorems.ExactAccounting | src/bladepsgi.cpp:434-637 | in every reachable state the tables hold exactly the unreaped children and the pid being handled, each once; the unknown-child and abort() exits are never taken |
| SupervisorTheorems.HandlersSeeCompleteTables | src/bladepsgi.cpp:642-659 | a handler that can run before any request sees all workers, auxiliaries and the monitor in the tables |
| SupervisorTheorems.CompleteUntilStopped | src/bladepsgi.cpp:588-637 | until a SIGTERM or SIGINT is handled the started overseer keeps all workers, all auxiliaries and the monitor in its tables |
| SupervisorTheorems.TraceOf | src/bladepsgi.cpp:42-86 | the history fields equal the signals handled, broadcasts begun and pids reaped by the actions of the run |
| SupervisorTheorems.Escalation | src/bladepsgi.cpp:702-724 | every run makes at most one SIGTERM broadcast, and at every moment the broadcasts begun are covered by that many handled SIGINTs and SIGTERMs |
| SupervisorTheorems.ExactEscalation | src/bladepsgi.cpp:53-62 | while the overseer runs, requests handled with their flag clear equal broadcasts begun plus the one still waiting; a request handled with its flag set is merged |
| SupervisorTheorems.TwoSmartMeansFastIff | src/bladepsgi.cpp:708-724 | the second-smart broadcast has begun, or its request waits behind the smart one, exactly when two SIGTERMs were handled with the smart flag clear |
| SupervisorTheorems.SmartShutdownAsksEveryone | src/bladepsgi.cpp:716-723 | after the SIGTERM broadcast every unreaped worker and the monitor are dead, have it pending, or have set their flag |
| SupervisorTheorems.BroadcastTargets | src/bladepsgi.cpp:574-586 | a broadcast signals the unreaped workers and monitor, each once; the only other possible target is the pid just reaped |
| SupervisorTheorems.ExitLeavesNobodyRunning | src/bladepsgi.cpp:574-586 | at every exit but the handler's _exit(3), and at that one after a completed SIGQUIT broadcast, every worker and monitor left is dead or has a SIGQUIT pending; after a crash the exit flag is set; after exit(0) there is no child |
| BrokenPipe.BrokenPipeSparesNobodyIff | src/bladepsgi.cpp:74-84 | whenever a handler's write() fails, _exit(3) leaves no worker or monitor without a SIGQUIT from the overseer exactly when it had completed a SIGQUIT broadcast or one under way had struck everyone alive |
| BrokenPipe.RunSourced | src/bladepsgi.cpp:115-124 | in every run a live child has a SIGQUIT pending from the overseer only if a SIGQUIT broadcast was completed, or the one under way has struck that child |
| SupervisorTheorems.AuxiliariesHoldTheExit | src/bladepsgi.cpp:115-124 | the overseer never signals an auxiliary and does not reach exit(0) while one is unreaped |
| SupervisorTheorems.CleanExit | src/bladepsgi.cpp:727-752 | exit(0) is reached only if a SIGTERM or SIGINT was handled before anything was erased from a table, and every child forked was reaped exactly once |
| SupervisorTheorems.RequestBeforeReapIff | src/bladepsgi.cpp:588-637 | in every run ending with exit(0) the first request precedes the first reaped child exactly when it is not handled between waitpid() and the test of the shutdown flag; otherwise exactly one child was reaped before it, the one being looked at |
| SupervisorTheorems.UnexpectedIff | src/bladepsgi.cpp:594-632 | a reaped child's death is unexpected exactly when no SIGTERM and no SIGINT was handled by the time its table is looked at |
| SupervisorTheorems.NoDeadlock | src/bladepsgi.cpp:665-753 | until it exits, the main program can always take a step |
| Scenarios.CleanExitAfterUnaskedDeath | src/bladepsgi.cpp:728-751 | a run in which a worker is reaped before any request and the overseer still ends with exit(0) |
| Scenarios.SecondTermCanBeLost | src/bladepsgi.cpp:716-723 | a run that handles two SIGTERMs, makes one broadcast and goes back to sleep with no flag set |
| Scenarios.BrokenPipeAbandonsChildren | src/bladepsgi.cpp:74-84 | a run in which a handler's write() fails and the overseer ends without having signalled its worker and its monitor, which are still setting up and have nothing pending (no parent-death signal is set yet) |
| Scenarios.HandlerInsideTheDrain | src/bladepsgi.cpp:343-365 | a run in which a SIGINT is handled between a read() that empties the pipe and the one that finds it empty; the request is noted and its byte is read in the same drain |
| Scenarios.RequestHypothesesCanBeMet | src/bladepsgi.cpp:665-753 | an infinite run that has every property RequestLeadsToExit asks for |
| Shutdown.DeadChildrenStep | src/bladepsgi.cpp:665-753 | with shutdown requested, by whichever signal, and no live child, every quiet step exits cleanly or lowers a well-founded measure |
| Shutdown.ShutdownCompletesIff | src/bladepsgi.cpp:665-753 | in every run with shutdown requested and no further signal or failing call, the overseer reaches exit(0) if and only if every child alive then comes to an end; nothing is asked of scheduling |
| Shutdown.FastShutdownCompletes | src/bladepsgi.cpp:702-715 | after a SIGQUIT broadcast exit(0) follows if SIGQUIT was not blocked when the overseer was started, the kernel boots children and delivers it, and auxiliaries end by themselves |
| Shutdown.SmartShutdownCompletes | src/bladepsgi.cpp:716-723 | after the SIGTERM broadcast alone exit(0) follows if SIGTERM was not blocked when the overseer was started, the kernel boots children and delivers it, workers whose flag is set end, and auxiliaries end |
| Shutdown.ShutdownCompletesWithoutAuxiliaries | src/bladepsgi.cpp:115-124 | with no auxiliaries fast shutdown needs only a kernel that schedules children and delivers SIGQUIT, and an overseer started with SIGQUIT unblocked |
| Requests.OverseerAdvances | src/bladepsgi.cpp:665-753 | while a handled request is unanswered, every step of the main program or of a handler completes a broadcast or lowers a well-founded measure, whatever flags and children are doing |
| Requests.RequestLeadsToExit | src/bladepsgi.cpp:639-755 | from any handled SIGTERM or SIGINT to exit(0): if nothing more arrives, the overseer keeps running, neither SIGTERM nor SIGQUIT was blocked at its start, and the children answer |
| OverseerProgram.SpawnRun | src/bladepsgi.cpp:434-555 | forking auxiliaries, workers and the monitor one after the other is a run from the start of the program, and each pid is where the spawn order puts it |
| OverseerProgram.Overseer.SpawnProcesses | src/bladepsgi.cpp:434-555 | the request and spawn loops record exactly the pids forked before the first failure; when none fails the auxiliaries are the first, the workers the next and the monitor the last, each auxiliary with its name |
| OverseerProgram.Overseer.StartUp | src/bladepsgi.cpp:639-659 | Run() up to its loop is a run of the step system; if every fork succeeds it ends at select() with complete tables and with the mask and the four handlers that the start-up program in Startup leaves, and if one fails it ends on the way to giving up with everything blocked |
| OverseerProgram.Overseer.HandleParentSignal | src/bladepsgi.cpp:42-86 | the handler's assignments are the handler step in all three endings: return (a full pipe included), SIGQUIT to all targets and _exit(1), or _exit(3) on a failed write with nobody signalled |
| OverseerProgram.Overseer.DrainSelfPipe | src/bladepsgi.cpp:343-365 | the read loop is a run that empties the pipe, retrying after EINTR; any other error is thrown with the pipe untouched |
| OverseerProgram.Overseer.SelectOnPipe | src/bladepsgi.cpp:665-700 | select() and the drain are a run to the flag tests, also when select() is interrupted (the pipe is then left as it is), or to giving up when a call fails |
| OverseerProgram.Overseer.RelayFlags | src/bladepsgi.cpp:702-724 | the if/else-if chain is a run from the fast test to waitpid(); it signals the targets with SIGQUIT if the fast or force flag is set, else SIGTERM, and not at all if no flag is set |
| OverseerProgram.Overseer.GiveUp | src/bladepsgi.cpp:574-586 | raising the exit flag and signalling all targets with SIGQUIT is a run to _exit(1) |
| OverseerProgram.Overseer.ReapChildren | src/bladepsgi.cpp:727-752 | the waitpid loop is a run that ends in _exit(1) with everyone signalled if the call fails or the first death was not asked for, and otherwise, retrying after EINTR, erases exactly the dead and goes back to select() or, if no child is left, on to exit(0) |
| OverseerProgram.Overseer.MainLoopPass | src/bladepsgi.cpp:665-753 | one whole pass of the main loop is a run from select() to select() or an exit, for every way in which select(), read() and waitpid() can end, with the flags, the pipe, the exit flag, the tables and the signals sent that it leaves |
| OverseerProgram.SweepRun | src/bladepsgi.cpp:115-124 | an uninterrupted broadcast reaches each target in order |
| OverseerProgram.ForgetAllRemoves | src/bladepsgi.cpp:588-637 | erasing several pids removes exactly those |
| Startup.SignalMask.UnblockSignals | src/bladepsgi.cpp:272-280 | the oldest saved mask is restored; with none saved the call fails and changes nothing |
| Startup.UnblockUndoesBlockIff | src/bladepsgi.cpp:262-280 | unblocking undoes blocking exactly when all masks saved before equal the current one |
| Startup.NestedUnblockOpensTheOuterMask | src/bladepsgi.cpp:262-280 | at depth two one unblock restores the outermost mask |
| Startup.SafeStartup | src/bladepsgi.cpp:642-659 | in every process, under any arrival of signals, nothing is delivered before its handlers are installed and the inherited mask is popped exactly once, last |
| Startup.OverseerLosesNoSignal | src/bladepsgi.cpp:642-659 | every signal sent to the overseer after BlockSignals() stays pending until its own handler gets it; none is dropped, kills by default, or is handled before all four handlers are in place |
| Startup.WorkerSurvivesTerm | src/worker.cpp:57-68 | a SIGTERM sent to a worker at any moment after fork stays pending until it sets the flag and never kills by default |
| Startup.DeadlyIsInstalled | src/auxiliary.cpp:31-39 | in every run of a worker, monitor or auxiliary from fork on, a delivered signal ends it exactly when the supervision protocol assumes so, SIGCHLD included |
| ProcessTitle.SetProcessTitle | src/bladepsgi.cpp:282-315 | nothing outside the contiguous argument block changes; the truncated title is what can be read at argv[0], unless an empty block is followed by the environment, when only a terminator is lost |
| ProcessTitle.FindBlockEnd | src/bladepsgi.cpp:287-296 | the loop finds the end of the run of adjacent argument strings |
| ProcessTitle.BlockEndsWithLastAdjacent | src/bladepsgi.cpp:287-296 | that end is the end of the last argument reached by going from each string to the one right behind it, and the next argument, if any, is not right behind |
| Segment.Align | src/shmem.cpp:9 | the least multiple of 16 not below the offset |
| Segment.DecodeEncode | src/shmem.cpp:69-80 | a stored 64-bit integer reads back as itself |
| Segment.EncodeDecode | src/shmem.cpp:76-80 | every eight bytes are the encoding of the integer they decode to |
| Segment.LoadElsewhere | src/shmem.cpp:90-102 | a store leaves every range it does not overlap alone |
| Allocator.AllocatorSeparates | src/shmem.cpp:90-102 | over any sequence of requests the regions handed out are 16-aligned, lie between the header words and the status array, and follow one another without overlap |
| Allocator.MachineSeparates | src/shmem.cpp:96-101 | the same in size_t arithmetic, region by region, as long as the sizes asked for add up to less than 2^64 |
| Allocator.AlwaysSound | src/shmem.cpp:104-136 | in any creation sequence names stay unique per kind and registered regions stay apart |
| Allocator.FailureLeavesRegistries | src/shmem.cpp:104-136 | a failed creation changes no registry; a successful one appends its handle to its own |
| Allocator.FrozenOnceLocked | src/shmem.cpp:82-102 | after the lock no request changes registries or offset, or hands anything out |
| Allocator.LockIsFinal | src/shmem.cpp:82-102 | after a lock anywhere in a request sequence nothing more is handed out, registries and offset stay as they were at the lock, and every later request is refused |
| Allocator.SemaphoreCreatedIff | src/shmem.cpp:104-122 | the exact condition for creating a semaphore (new name, value in 1..2147483647, open segment, room, working sem_init()); a taken name, a bad value or a lock changes nothing |
| Allocator.AtomicCreatedIff | src/shmem.cpp:124-136 | the exact condition for creating an atomic integer |
| Allocator.RegisteredForGood | src/shmem.cpp:104-136 | registries only grow at the end, so a name keeps its region |
| Allocator.ExactCapacity | src/shmem.cpp:96-101 | an allocation succeeds exactly when 16 plus all aligned sizes asked for so far stays below 2048 |
| Allocator.OneRefusalIsFinal | src/shmem.cpp:96-101 | once one request fails for lack of room every later one is refused |
| Allocator.SegmentHolds126 | src/shmem.cpp:104-136 | creating a atomics and s semaphores all succeed exactly when a + 2s <= 126 |
| Allocator.MachineAgreesIff | src/shmem.cpp:96-99 | size_t arithmetic gives the model's offset exactly when that offset fits in 64 bits |
| Allocator.WrapDefeatsTheBound | src/shmem.cpp:96-101 | a request of 2^64 - 16 bytes wraps the offset to zero and passes the bound |
| SharedMemory.StoreAtomic | src/perl_interpreter_sea_bridge.cpp:134-150 | storing through an atomic's handle changes that atomic and nothing else the segment holds |
| SharedMemory.StoreStatus | src/bladepsgi.cpp:763-767 | storing a worker's status changes that slot and nothing else |
| SharedMemory.StoreSemaphore | src/shmem.cpp:35-67 | whatever is written into a semaphore's region changes nothing else |
| SharedMemory.SharedSegment.constructor | src/shmem.cpp:138-148 | a new segment holds a clear flag, a zero counter, zero statuses and empty registries |
| SharedMemory.SharedSegment.LockAllocations | src/shmem.cpp:82-88 | the segment is locked afterwards; a second lock fails; the contents stay |
| SharedMemory.SharedSegment.AllocateUserShmem | src/shmem.cpp:90-102 | the layout changes as the allocator specifies, the contents not at all |
| SharedMemory.SharedSegment.NewSemaphore | src/shmem.cpp:104-122 | layout and outcome as specified; the record gains one semaphore on success and is unchanged on any failure |
| SharedMemory.SharedSegment.NewAtomicInt64 | src/shmem.cpp:124-136 | layout and outcome as specified; the record gains one atomic with the given value on success and is unchanged on any failure |
| SharedMemory.SharedSegment.SetShouldExitImmediately | src/shmem.cpp:193-198 | sets the flag and tells whether it was clear |
| SharedMemory.SharedSegment.ShouldExitImmediately | src/shmem.cpp:200-205 | reads the flag |
| SharedMemory.SharedSegment.IncreaseRequestCounter | src/shmem.cpp:174-179 | adds one to the counter modulo 2^64, nothing else, and returns the value before |
| SharedMemory.SharedSegment.ReadRequestCounter | src/shmem.cpp:181-186 | reads the counter |
| SharedMemory.SharedSegment.SetWorkerStatus | src/bladepsgi.cpp:763-767 | writes byte 2048 + w, which is the worker's own slot only; a worker number from 2048 on writes outside the segment and changes nothing in it |
| SharedMemory.SharedSegment.GetWorkerStatus | src/shmem.cpp:156-161 | reads byte 2048 + w, the worker's slot, or from 2048 on whatever follows the segment |
| SharedMemory.SharedSegment.GetAllWorkerStatuses | src/shmem.cpp:163-172 | copies nworkers bytes in order, the slots first and what follows the segment after them, and changes nothing |
| SharedMemory.SharedSegment.AtomicFetchAdd | src/perl_interpreter_sea_bridge.cpp:134-138 | adds modulo 2^64 to one atomic and returns the value before |
| SharedMemory.SharedSegment.AtomicLoad | src/perl_interpreter_sea_bridge.cpp:140-144 | reads one atomic |
| SharedMemory.SharedSegment.AtomicStore | src/perl_interpreter_sea_bridge.cpp:146-150 | replaces one atomic |
| SegmentRuns.RunRefines | src/shmem.cpp:150-205 | any run of operations on the bytes, by any processes, is the same run on the record |
| SegmentRuns.ExecuteAll | src/shmem.cpp:150-205 | the same run made through the methods of the segment object is that run on the record, and as many calls are told to log as OneAnnouncer counts |
| SegmentRuns.NoInterference | src/shmem.cpp:150-205 | over any run a flag, counter, slot, atomic or semaphore that no operation addresses reads as before |
| SegmentRuns.OneAnnouncer | src/shmem.cpp:189-205 | over any run, of all calls that raise the exit flag exactly one is told to log, and the flag never clears |
| SegmentRuns.StatusArrayFitsIff | src/bladepsgi.cpp:862-866 | all status slots lie in the segment exactly for at most 2048 workers, while 2049 are accepted |
| WorkerPool.CounterConservation | src/worker.cpp:42-55 | in every reachable state the counter is its start plus all increments modulo 2^64, and callbacks returned exceed increments by exactly the workers between, or killed between, return and increment |
| WorkerPool.AtMostOneMore | src/worker.cpp:42-55 | once told to stop, by flag or by SIGTERM, a worker finishes at most one more callback and makes at most one more increment, in every interleaving |
| WorkerPool.BoundedWorkAfterExit | src/worker.cpp:42-55 | after the exit flag is set the request counter grows, modulo 2^64, by at most the workers past their exit check, so at most nworkers |
| WorkerPool.BoundIsAttained | src/worker.cpp:42-55 | from every state some run makes all the increments that are owed |
| WorkerPool.StoppedWorkerEnds | src/worker.cpp:42-55 | in every infinite run a worker told to stop, by flag or by SIGTERM, ends if it is scheduled and its callback ends, whatever the others do |
| WorkerPool.OwnSlotOnly | src/worker.cpp:36-40 | a status slot changes only by its own worker's action |
| WorkerPool.RegularScan | src/shmem.cpp:163-172 | each byte of a scan taken while workers write is a value its slot held at some moment of the scan |
| WorkerPool.ScanLength | src/monitoring.cpp:112-116 | a scan ends with exactly one byte for each worker |
| WorkerProgram.WorkerProcess.MainLoopIteration | src/worker.cpp:42-55 | one iteration over the segment object, with any writes by the callback to its status and to atomics, is a run of the pool's steps, with the exit code and the final segment contents for each case |
| WorkerProgram.AppliedFrame | src/worker.cpp:36-52 | a callback changes its worker's slot and the atomics it names and nothing else |
| WorkerProgram.CallbackResult | src/worker.cpp:36-52 | after a callback the slot holds the last status it set, and each atomic what its stores and adds come to in order |
| WorkerProgram.WorkerProcess.HandleTerm | src/worker.cpp:7-16 | the handler is the pool's Term step: the worker counts as told to stop, goes on with what it is doing, and the segment is untouched |
| Report.NumberOfText | src/monitoring.cpp:11-17 | a printed number reads back as itself |
| Report.BuildReport | src/monitoring.cpp:52-60 | a client that reads the text line by line (start time, status bytes, counter, empty line, tagged lines) gets back exactly what was reported, for newline-free names |
| Report.ReadBack | src/monitoring.cpp:52-60 | the same of the specified text |
| Report.ReportIsUnambiguous | src/monitoring.cpp:52-60 | for a fixed number of workers the text determines start time, statuses, counter and both lists, even with newlines among the statuses, as long as no name looks like the end of one line and the start of the next |
| Report.ReadableIff | src/monitoring.cpp:52-60 | for any class of names that allows the parts of what it allows, reports can be read back exactly when no allowed name contains ": ", a number, a newline and "sem " or "atomic " |
| Report.PlainNameIsWhole | src/monitoring.cpp:57-60 | names without a newline, and names without a colon, are harmless |
| Report.NewlineInNameIsAmbiguous | src/monitoring.cpp:57-60 | with a newline in a name two different reports can read the same |

## Left out

- Perl embedding, XS glue and the FastCGI wrapper: the callback is a step that returns or throws, and may set its own status or touch shared atomics first.
- Sockets, mmap(), logging, time formatting, accept() and write() to clients: input and output only.
- POSIX semaphore internals: a semaphore is 32 opaque bytes; sem_init() succeeds or fails by parameter.
- Parent-death signals and the monitor's RunnerDied() check: only the overseer's own signals are modelled, the timing of these is the kernel's, and the monitor's own KillProcessGroup() uses a copy of the tables made at fork.
- C++ memory-model questions: handlers run whole between steps of the main program, and pid vectors are not read half-edited.
- Argument parsing and exception classes: only the accepted worker range is used.
- Children adopted from elsewhere: only the three spawn paths create children of the overseer (it is not process 1 and not a subreaper), and a pid is not reused while its child is unreaped.
- EINTR: a system call may return it whenever a handler has run since the last EINTR, which allows more runs than a kernel does.
- AllocatorSeparates: offsets are unbounded integers; MachineSeparates carries it over to size_t, and MachineAgreesIff and WrapDefeatsTheBound say when size_t differs. Both callers in the source ask for 8 or 32 bytes.
- Shutdown.ShutdownCompletesIff: assumes no signal to the overseer and no failing system call after the request; a stream of signals can keep the drain loop busy for ever.
- An overseer started with SIGCHLD ignored: until it installs its own handler the kernel would then reap children that die during start-up by itself, so ExactAccounting and CleanExit assume that SIGCHLD is not ignored at the start.
- OverseerProgram: the methods are proved as uninterrupted runs; interruptions are covered by the step system, not by the methods.
- ProcessTitle.SetProcessTitle: one call on untouched arguments; a second call would measure the strings that the first one wrote.
