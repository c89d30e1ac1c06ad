# Verification of the asynchronous runtime and its echo session

The program is a single-threaded server: an epoll loop (`IOContext`) resumes C++20 coroutines that
are suspended in non-blocking system calls, tasks await each other, and each client session pipes a
request through a forked `cat` and echoes what comes back. This project models that runtime and
proves what it relies on, over every run and every order of events. `dafny verify dfyconfig.toml`
checks everything.

| file | what it is about |
|---|---|
| `Wrappers.dfy` | optional values, bytes |
| `Epoll.dfy` | the kernel side: interest list, readiness, FIFO ready list, edge-triggered reports |
| `EventLoop.dfy` | the loop, the descriptors and their operations as a state machine; its invariant |
| `Safety.dfy` | every step keeps the invariant; safe dispatch, no lost wake-up, interest mirror |
| `HangUps.dfy` | whom it wakes when the other end of a file goes, and a run in which nobody wakes; whether events are still true when they are dispatched |
| `Discipline.dfy` | what several requests in one turn amount to; a kernel that refuses them |
| `SessionDiscipline.dfy` | when an echo session keeps to the discipline; a session that does not, and what follows |
| `Fairness.dfy` | how many turns a ready operation waits |
| `Interleaving.dfy` | a run with many clients, restricted to one, is a run of that client alone |
| `IoContext.dfy` | the class `IOContext`, with the dispatch and reconcile loops, refining the state machine |
| `Coroutines.dfy`, `AwaitSimulation.dfy` | frames, promises, final awaiter; agreement with direct evaluation; frame lifetimes |
| `Families.dfy` | which coroutines a run detaches, and with what arguments |
| `Tasks.dfy` | the same operations on fields updated in place, and the driver that runs them to the end |
| `BlockingCalls.dfy` | the awaiter around a read: try, suspend, retry once |
| `Footprints.dfy`, `Resources.dfy` | open files, registrations and owners; the frame rule for concurrent sessions |
| `Commands.dfy` | `PipedAsyncCommand` and what a session leaves behind |
| `SessionShape.dfy` | which directions a session's descriptors are used in, how often, and in what order |
| `Children.dfy` | inherited pipe ends and ends of input (`EndOfInput`); waiting for a child (`Reaping`) |
| `Session.dfy` | `echo_loop` from the receive to the last send |
| `HexDump.dfy`, `DumpLayout.dfy` | the hexadecimal printer; what stands where in what it prints |

## How to read the model

**Runs.** `EventLoop.Step` lists what can happen: the outside world changes readiness, coroutine code
opens and closes descriptors and begins, suspends and ends operations, and the loop harvests,
dispatches and reconciles. `Allowed` says when a step can happen. Apart from what the language or the
kernel enforces, it has one hypothesis, the *single-direction discipline* (`Disciplined`): an
operation begins only on a descriptor that has none outstanding and whose applied mask does not hold
the bit of the other direction. The code depends on it: watch and unwatch compute the requested mask
from the applied one, and slots are never cleared. `SessionDiscipline.SendIsDisciplinedIff` says when
an echo session meets its clause on masks, and `SessionDiscipline.StaleSlotInASession` is a session that
does not and ends in a resume of a coroutine that is not suspended there.

**Faults.** A use of a dead descriptor, a resume of a coroutine that is not suspended on that
descriptor and direction, a frame destroyed twice or resumed when it is gone, a file closed twice or
while still registered: each sets a flag that nothing clears. Safety theorems say that the flag is
never set.

**Addresses** of descriptors are numbers that can be handed out again, even while the batch still
holds an event for the old owner.

**Masks** have the three bits that the code uses: EPOLLIN, EPOLLOUT and EPOLLET. EPOLLHUP and EPOLLERR
are reported whatever the mask says. An event with neither EPOLLIN nor EPOLLOUT resumes nobody, as in
the code. Readiness (`IsReady`) is what poll reports; a system call does not block (`WouldNotBlock`) when
the other end has gone either, since a read then returns 0 and a write fails at once, although an
empty pipe without writers is reported with EPOLLHUP alone and a full one without readers with EPOLLERR
alone.

**Coroutines** are finite trees of system calls, awaited tasks, detached tasks and branches. The
value of a system call is any function of the coroutine's own earlier calls, so it may differ from
call to call. Awaiting follows section 7.6.2.3 [expr.await] of ISO/IEC 14882:2020, and frames follow
section 9.5.4 [dcl.fct.def.coroutine].

**Methods and specifications.** Where the source changes an object, a class method is proved equal to
the state machine's function, and the theorems are about runs of those functions.

## Where the code departs from its documentation

- The comment at include/io_context.hh:68-92 says that checking `managed_fd` prevents a resume
  that no longer has a coroutine. When an address is reused within a batch the check passes for the
  new descriptor. What makes the resume safe is that a new descriptor's slot is empty or holds a
  coroutine suspended there (`Safety.SafeDispatch`).
- A wake-up is lost at a bare hang-up. The comment at src/io_context.cc:70-84 expects reads after
  EPOLLHUP, but line 53 resumes a reader for EPOLLIN only, so a reader that is suspended on an empty
  pipe when its last writer goes is never resumed (`HangUps.HangUpWakesIff`, `HangUps.BareHangUpIsLost`).
  The same holds of a writer on a full pipe whose last reader goes, which the echo session does not meet
  (`Session.WriteIsWhole`).
  In `echo_loop` this happens whenever the output's last piece ends a line and the read after it
  suspends before the child has gone; the client then gets no reply (`Session.CollectedIsWholeIff`,
  `Session.LastLineStalls`).
- A session whose reads all find output at once begins to send with the read bit still applied and the
  slot of its receive still set (`SessionDiscipline.StaleSlotInASession`).
- A resume may be spurious: an event harvested before an operation suspended can wake it in the same
  batch, and the single retry then returns -1 to the caller. `Safety.WakeupIsGenuine` says that this
  is the only case, and `BlockingCalls.GenuineIsBlocking` what it costs.
- `attach` and `attachWriteOnly` log a failed registration and manage the descriptor anyway, and the
  pass logs a failed modification and records the mask as applied (`Discipline.AttachMirrorsIffAdded`,
  `Discipline.ModifyMirrorsIffModified`).
- `recv` is called with one byte less than the buffer but needs room for two terminators, so one of
  them is written past the end when it fills all that (`Session.RecvFitsIff`).
- A read of the pipe that fills the buffer leaves no terminator for the string that is made of it, and
  an empty first read makes `merged.at` throw (`Session.EndingIsExact`).
- A send that fails after its retry moves the unsigned offset back by one
  (`Session.FailedSendGoesBack`, `Session.SendIsExactIff`, `Session.RetryDuplicates`,
  `Session.FailuresCanHide`).
- When `pidfd_open` fails, the two pipe ends meant for the child stay open (`Commands.InitFails`).
- The destructor of a task asks a frame that may be gone whether it is done
  (`AwaitSimulation.DroppingIsSafeIff`).

## Model

| member | source | states |
|---|---|---|
| Safety.StepKeeps | src/io_context.cc:31-242 | every step of a disciplined run, by the loop, a coroutine or the outside world, keeps the loop's invariant |
| Safety.RunKeeps | src/io_context.cc:31-117 | so does every run |
| Safety.SafeDispatch | src/io_context.cc:44-98 | in every run, no dead descriptor is touched, and an event for a managed descriptor finds a slot set exactly when a coroutine is suspended on that descriptor and direction, resumes that coroutine, and leaves it about to retry |
| Safety.NoLostWakeup | src/io_context.cc:44-115 | in every run, an operation that is suspended although its system call would not block has a wake-up under way (in the batch, to be reported from the ready list, or from a pending EPOLL_CTL_MOD that adds its bit) if and only if poll reports its direction or the batch holds its event; when the loop is in epoll_wait, if and only if poll reports it |
| HangUps.HangUpWakesIff | src/io_context.cc:53-96 | in every run, after the other end has gone under a suspended reader or writer its wake-up is under way if and only if poll reports its direction at that moment or the batch holds an event for it; otherwise no continuation resumes it before new data, or room, arrives |
| HangUps.OnlyReadinessReports | src/io_context.cc:53-96 | no step but an arrival of data, or room, ends the wait of an operation that nothing has been reported to |
| HangUps.BareHangUpIsLost | src/io_context.cc:65-91 | a disciplined run after which a reader at the end of its pipe is suspended, nothing is left to wake it, and no continuation without new data does |
| HangUps.ReportsStayTrue | src/io_context.cc:53-91 | from the opening of a descriptor whose address the batch holds no event for until it is closed: a hang-up is flagged only when the writers have gone; and if no system call uses up what is ready, as none does for a pidfd, every resume finds its direction ready |
| Safety.MirrorAlways | src/io_context.cc:124-242 | in every run, managed_fd is the kernel's interest list, the kernel's masks are the applied masks and processedSockets is managed; after a pass no processed descriptor has a request outstanding |
| Safety.OneResumePerEvent | src/io_context.cc:53-96 | in every run, no registered mask and no harvested event holds both directions, so one event never resumes twice |
| Safety.WakeupIsGenuine | include/block_syscall.hh:63-69 | a resume finds its direction ready unless the operation suspended in the turn of the harvest |
| Safety.DispatchedSlot | include/async_file_desc.hh:79-99 | the guard of resumeRecv and resumeSend passes exactly when a coroutine is suspended there, and the handle is that coroutine's |
| Safety.NextIsDispatched | src/io_context.cc:46-97 | one dispatch consumes one event, resumes at most one operation, marks a hang-up only with EPOLLIN, and changes nothing else |
| Safety.PassReconciles | src/io_context.cc:99-115 | whatever the order in which the set is walked, the pass applies every requested mask, keeps the invariant and changes nothing but masks and the ready list |
| Safety.HarvestedEvent | src/io_context.cc:37-46 | a harvested event belongs to a live descriptor and carries only directions that are applied and ready |
| Safety.HarvestReports | src/io_context.cc:37-46 | a ready direction of a harvested registration is in the batch |
| Safety.BeginKeeps | src/file_read_operation.cc:28-38 | constructing an operation, which watches its direction, keeps the invariant |
| Safety.BlockKeeps | include/block_syscall.hh:36-61 | suspending after EAGAIN keeps it |
| Safety.EndKeeps | src/file_read_operation.cc:40-44 | destroying an operation, which unwatches, keeps it, with the slot left as it is |
| Safety.OpenKeeps | src/socket.cc:97-100 | constructing and attaching a descriptor, at a fresh or a reused address, keeps it |
| Safety.CloseKeeps | include/async_file_desc.hh:66-77 | detaching, closing and releasing a descriptor keeps it, whatever the batch still holds |
| Safety.ReleaseKeeps | src/piped_async_command.cc:176-197 | the extra unwatch of finishwriting and finishReading keeps it |
| Safety.WaitKeeps | src/io_context.cc:37-42 | a harvest keeps it |
| Discipline.LastRequestWins | src/io_context.cc:188-225 | after any sequence of watch and unwatch calls and a pass, the mask is the applied one changed by the last call only; this is the fold of all calls if and only if the fold leaves the other direction's bit alone |
| Discipline.SingleDirectionFolds | src/io_context.cc:188-225 | calls of one direction always amount to their fold |
| Discipline.AttachMirrorsIffAdded | src/io_context.cc:124-139 | attaching keeps the interest mirror if and only if EPOLL_CTL_ADD succeeded |
| Discipline.ModifyMirrorsIffModified | src/io_context.cc:101-114 | a round of the pass keeps the interest mirror if and only if EPOLL_CTL_MOD succeeded or there was nothing to apply |
| SessionDiscipline.SendIsDisciplinedIff | app/main.cc:49-107 | in every run, a session's first send is disciplined if and only if a reconcile pass lies between the end of its receive and the send, whatever the session and everybody else do in between |
| SessionDiscipline.SendIsDisciplinedInALaterTurn | app/main.cc:49-107 | that is, if and only if the send begins in a later turn than that in which the receive ended |
| SessionDiscipline.PassMeansLaterTurn | src/io_context.cc:34-116 | between two moments at which coroutines run there is a pass if and only if they are in different turns |
| SessionDiscipline.StaleSlotInASession | src/io_context.cc:188-225 | for every number of reads that find output at once, the session given step by step is disciplined up to its first send, which only the clause on masks refuses; after it the session is suspended in its wait for the child; and the client's next byte is dispatched to a socket without an operation whose slot still holds that coroutine, which is a fault |
| Fairness.HarvestMovesForward | include/io_context.hh:62 | a full harvest reports a waiting registration or removes at least twenty ahead of it |
| Fairness.ResumedWithinTurns | src/io_context.cc:37-98 | a ready suspended operation with k registrations ahead of it is resumed within floor(k/20)+1 turns, whatever arrives behind it |
| Fairness.ReadyIsResumed | src/io_context.cc:34-116 | every suspended operation whose direction poll reports when the loop enters epoll_wait is resumed within a number of turns bounded by the length of the ready list |
| Interleaving.EveryStepProjects | src/io_context.cc:31-242 | each step, restricted to one client, is a valid step of that client or none at all |
| Interleaving.PassProjects | src/io_context.cc:99-115 | a pass over everybody is, for one client, a pass over its own descriptors |
| Interleaving.HarvestProjects | src/io_context.cc:37-46 | a harvest is, for one client, a harvest of its own registrations |
| Interleaving.ClientRunsAlone | src/io_context.cc:34-116 | a run with any number of clients, restricted to one, is a valid run of that client from the start and ends in the restriction of the final state |
| IoContext.IOContext.constructor | include/io_context.hh:51-58 | a new context is the start of a valid run |
| IoContext.IOContext.Attach | src/io_context.cc:124-181 | attach and attachWriteOnly record the first mask and manage the descriptor, whether or not the kernel registers it |
| IoContext.IOContext.AttachReadonly | src/io_context.cc:146-158 | the same if the kernel registers it; otherwise it throws and changes nothing |
| IoContext.IOContext.Watch | src/io_context.cc:188-192 | watchRead and watchWrite |
| IoContext.IOContext.Unwatch | src/io_context.cc:199-203 | unwatchRead and unwatchWrite |
| IoContext.IOContext.Detach | src/io_context.cc:232-242 | the kernel's registration and both set memberships go |
| IoContext.IOContext.DestroyDescriptor | include/async_file_desc.hh:66-77 | detach, close, release |
| IoContext.IOContext.BeginOperation | src/socket_send_operation.cc:26-33 | an operation is constructed, with or without a watch |
| IoContext.IOContext.Suspend | src/socket_recv_operation.cc:64-68 | the slot of the operation's direction is set |
| IoContext.IOContext.EndOperation | src/socket_recv_operation.cc:36-40 | an operation is destroyed |
| IoContext.IOContext.Resume | include/async_file_desc.hh:79-99 | if the slot is set, the trace grows by the dispatch, everything that the resumed code does, and its return, in that order; otherwise nothing changes |
| IoContext.IOContext.DispatchEvent | src/io_context.cc:46-97 | dispatches exactly the first event of the batch: the trace grows by the dispatch and, if it resumes somebody, by everything that the resumed code does and its return, whatever well-behaved code that is |
| IoContext.IOContext.DispatchAll | src/io_context.cc:44-98 | the loop over the batch is the concatenation, event by event, of what their dispatches come to |
| IoContext.IOContext.ApplyMask | src/io_context.cc:101-114 | EPOLL_CTL_MOD only for a changed mask, which is recorded as applied whether or not it succeeds |
| IoContext.IOContext.WalkProcessed | src/io_context.cc:99-115 | the loop over the set, in any order, visits each member once and is a pass of the state machine |
| IoContext.IOContext.ReconcileMasks | src/io_context.cc:99-115 | the end of a turn leaves every processed descriptor reconciled and extends the valid run by a pass |
| IoContext.IOContext.Turn | src/io_context.cc:34-116 | one turn is exactly the harvest, the dispatches of the harvested events in order, each with the code it resumes, and one pass over the processed set; it extends a valid run and ends reconciled |
| AwaitSimulation.DrivingIsEvaluation | include/task.hh:56-73 | for every tree of coroutines and every schedule, each coroutine that has ended has the result of its direct recursive evaluation, and has made the system calls and detached the coroutines of it, in its order |
| Families.DetachedAreEvaluated | app/main.cc:150-150 | in every run, every coroutine but the first is one that direct evaluation of an earlier one detaches at a certain place, with the code and the arguments given there; no two share a place; and every place of a coroutine that has ended has its coroutine |
| AwaitSimulation.DrivingTerminates | include/task.hh:176-180 | a run has at most as many moves as the tree has places, and never gets stuck while a frame is left |
| AwaitSimulation.FramesLiveOnce | include/task.hh:151-172 | in every run, no frame is destroyed twice, resumed when gone or done, or asked for a result it no longer has; every frame that is not alive was destroyed exactly once; a waiter outlives whom it awaits |
| AwaitSimulation.DroppingIsSafeIff | include/task.hh:151-172 | the destructor of a task is safe if and only if the frame is there, or the task was detached and its two done() queries do not answer no and then yes |
| AwaitSimulation.OutcomeUnwinds | include/task.hh:64-72 | a step that keeps a frame's outcome keeps that of every waiter up the chain |
| AwaitSimulation.OutcomeIsLocal | include/task.hh:56-73 | the outcome of a tree does not depend on other trees |
| AwaitSimulation.AwaitKeeps | include/task.hh:176-180 | task::await_suspend keeps the machine's invariant |
| AwaitSimulation.FinalSuspendKeeps | include/task.hh:64-68 | a final awaiter that resumes its waiter keeps it |
| AwaitSimulation.FinishKeeps | include/task.hh:69-71 | a final awaiter without waiter, which destroys its own frame, keeps it |
| AwaitSimulation.AwaitResumeKeeps | include/task.hh:221-225 | taking the result and destroying the task keeps it |
| AwaitSimulation.DetachKeeps | include/task.hh:203-207 | detach keeps it |
| AwaitSimulation.DetachLeavesTheFrame | include/task.hh:157-170 | the destructor of a detached task touches no frame, whatever done() answers for one that is gone |
| AwaitSimulation.MoveKeeps | include/task.hh:43-219 | every move keeps it |
| AwaitSimulation.MoveDecreases | include/task.hh:43-219 | every move leaves less to do |
| AwaitSimulation.Progress | include/task.hh:43-219 | some move is possible while a frame is left |
| Tasks.Runtime.Drive | include/task.hh:43-219 | driven to the end on fields updated in place, every coroutine, detached ones included, has its direct evaluation's result, system calls and detached coroutines; the coroutines are exactly the first one and those that these evaluations detach, with the arguments given there; and every frame was destroyed exactly once |
| Tasks.Runtime.AwaitSuspend | include/task.hh:176-180 | sets the waiter and resumes the child |
| Tasks.Runtime.FinalAwait | include/task.hh:64-72 | resumes the waiter or destroys the frame |
| Tasks.Runtime.DropTask | include/task.hh:151-172 | the destructor's three branches |
| Tasks.Runtime.AwaitResume | include/task.hh:221-225 | the result reaches the waiter and the child's frame is destroyed |
| Tasks.Runtime.DetachTask | include/task.hh:203-207 | the child runs on top of its creator |
| Tasks.Runtime.Execute | include/task.hh:56-79 | what the running coroutine does next |
| Tasks.Runtime.Spawn | include/task.hh:203-207 | a coroutine is created with the arguments its creator computes, and detached |
| BlockingCalls.OperationOutcome | include/block_syscall.hh:36-69 | one or two system calls, of which only the last can take data; -1 exactly for a wake-up that found nothing, 0 exactly at the end of the stream; nothing taken is lost |
| BlockingCalls.StallsAtABareHangUp | include/block_syscall.hh:41-50 | an operation never returns if and only if it suspends, no event harvested before wakes it, and what it waits for is the end of the stream, where a blocking read returns 0 |
| BlockingCalls.DeliveryIsAPrefix | src/file_read_operation.cc:46-65 | for any interleaving of arrivals and wake-ups, spurious ones included, delivered bytes followed by unread ones are the stream |
| BlockingCalls.GenuineIsBlocking | include/block_syscall.hh:41-69 | a run is not stuck and never returns -1 if and only if every operation returns and every wake-up is genuine, and then it is the run of the same program with blocking reads |
| BlockingCalls.FileReadOperation.AwaitSuspend | include/block_syscall.hh:36-61 | suspends exactly on EAGAIN, having made one call |
| BlockingCalls.FileReadOperation.AwaitResume | include/block_syscall.hh:63-69 | retries exactly once, and only after a suspension |
| BlockingCalls.CoAwaitRead | src/file_read_operation.cc:46-59 | co_await on a read returns or not, and if so gives the value, calls, bytes in the buffer and stream, as specified |
| Resources.DoMarks | include/async_file_desc.hh:66-77 | what an act does to open files, registrations, objects and sets depends on these alone |
| Resources.StepIsActs | src/io_context.cc:31-242 | every step of a disciplined run does to them what its acts do: opening, closing, registering and watching are acts; arrivals, harvests, dispatches, suspensions and passes are none |
| Footprints.PartsChange | include/async_file_desc.hh:66-77 | an act on one session's addresses and files changes that part of the whole as it would alone |
| Footprints.PartsStay | include/async_file_desc.hh:66-77 | and leaves the rest as it is |
| Resources.PlaysApart | src/io_context.cc:34-116 | frame rule: however a session's acts are interleaved with everybody else's and with the loop, its part is what its acts alone make, the rest what the others' acts alone make |
| Footprints.ClosingsBalanceOpenings | include/async_file_desc.hh:66-77 | without a fault, every file is closed as often as it is opened, up to what is open before and after |
| Commands.InitStarts | src/piped_async_command.cc:72-157 | a successful init leaves exactly three registered objects, and only their files open |
| Commands.InitFails | src/piped_async_command.cc:72-150 | a failing pipe or fork leaves nothing; a failing pidfd_open leaves exactly the child's two ends open |
| SessionShape.InitListens | src/piped_async_command.cc:89-155 | after a successful init the child's output and the pidfd are registered for EPOLLIN alone and its input for EPOLLOUT alone, edge-triggered, each for its own object |
| Commands.CommandLeavesNothing | app/main.cc:74-116 | a started command's life, with any number of reads and sends, leaves nothing of it |
| SessionShape.CommandWatches | app/main.cc:74-116 | a command's life watches its input once, its output once for each read and the client once for each send, each in its direction, and nothing else |
| SessionShape.CommandHolds | src/file_read_operation.cc:28-44 | every watch is undone by the next act, and each descriptor is used in its own direction only |
| SessionShape.CommandInOrder | app/main.cc:74-110 | when the child's output is read, the server's end of the child's input has been closed, and when the client is sent to, its end of the child's output too |
| Commands.SessionMarks | app/main.cc:127-139 | the effect of a session, failed or not, on files, registrations and objects |
| SessionShape.SessionIsOneWay | app/main.cc:45-118 | in a whole session, failed or not, each of the command's descriptors is made, watched and unwatched in its own direction only |
| Commands.SessionConserves | app/main.cc:66-117 | amid any number of other sessions and whatever the loop does, of a session that is over nothing is left among open files, interest list, managed and processed sets and owners; the rest is what the others made of it, and a fault was theirs; a failing pidfd_open leaves exactly the child's two ends |
| Commands.SessionClosesOnce | app/main.cc:66-117 | the accepted socket, the four pipe ends and the pidfd are each closed exactly once |
| Commands.PipedAsyncCommand.Init | src/piped_async_command.cc:64-158 | every return of init, with what is open, registered and owned by then |
| Commands.PipedAsyncCommand.AbandonFork | src/piped_async_command.cc:96-104 | the failure path of fork |
| Commands.PipedAsyncCommand.OpenPidfd | src/piped_async_command.cc:151-155 | the pidfd is registered and the child's ends are closed |
| Commands.PipedAsyncCommand.Destruct | src/piped_async_command.cc:160-165 | the destructor's resets and the member destroyed after them |
| Commands.PipedAsyncCommand.FinishWriting | src/piped_async_command.cc:176-182 | unwatch, then one owner less |
| Commands.PipedAsyncCommand.FinishReading | src/piped_async_command.cc:192-197 | unwatch, then one owner less |
| EndOfInput.WaitsAreAcyclic | src/piped_async_command.cc:94-122 | a child's end of input waits only for later forks, so chains of waits never close |
| EndOfInput.WaitsExactly | src/piped_async_command.cc:94-122 | in every run, child i's end of input waits for child j if and only if j was forked later, before the server finished writing to i, and has not ended; so i is at its end if and only if the server has finished writing to it, or it does not exist yet, and every such j has ended |
| EndOfInput.SomeChildCanExit | src/piped_async_command.cc:118-122 | once the server has finished writing everywhere, the youngest living child is at the end of its input |
| EndOfInput.EveryChildExits | src/piped_async_command.cc:176-182 | then all children exit, by induction on fork order |
| EndOfInput.InputsEnd | src/piped_async_command.cc:72-122 | the same after any run of forks, finished writings, exits and kills |
| Reaping.EveryScheduleReaps | src/dying_process_wait_operation.cc:33-69 | on every schedule of the child's death, the wait and its wake-up, early ones included: a suspended wait has killed the child; once over, it has reaped the child exactly once and returned its pid if and only if it was not woken while the child was alive; at most three steps, never stuck |
| Reaping.SecondWaitStalls | src/dying_process_wait_operation.cc:49-57 | a wait suspends with its pidfd readable if and only if the child was reaped before |
| Reaping.WaitOutcome | src/dying_process_wait_operation.cc:47-69 | dead before the wait, the child is reaped at once; dying while the wait is suspended, it was killed and the retry reaps it and gives its pid; otherwise the wait has killed it, gives -1 and reaps nothing |
| Reaping.WaitIsASchedule | include/block_syscall.hh:36-69 | co_await is one of the schedules of death, wait and wake-up, so that what holds of all of them holds of it |
| Reaping.DyingProcessWaitOperation.CoAwait | src/dying_process_wait_operation.cc:47-69 | co_await on the wait has the specified value and effect |
| HexDump.Print | src/debug/rsdebug.cc:46-96 | the printer's pointer, counters and nine-place buffer stay in bounds and print the recursive split into lines of eight |
| HexDump.PrintColumns | src/debug/rsdebug.cc:62-78 | the loop prints all columns and ends every full line, in spite of the reload before the decrement |
| HexDump.Pad | src/debug/rsdebug.cc:84-87 | three blanks for each byte missing from the last line |
| HexDump.EndLine | src/debug/rsdebug.cc:69-76 | the end of a full line |
| HexDump.DumpShape | src/debug/rsdebug.cc:62-91 | ceil(n/8) lines, and with text shown every separator in column 24 |
| HexDump.DumpRoundTrip | src/debug/rsdebug.cc:46-96 | the hexadecimal columns decode to the buffer |
| DumpLayout.LineLayout | src/debug/rsdebug.cc:62-91 | line j shows bytes 8j to 8j+7, or what is left of them: the two digits of the k-th from column 3k, with text shown the byte itself, or a dot where it cannot be printed, in column 27+k, and blanks where a short line has no bytes |
| DumpLayout.TextRoundTrip | src/debug/rsdebug.cc:66-66 | read one after the other, the text columns have one character for each byte, and are the buffer if and only if all of it can be printed |
| HexDump.DumpGrows | src/debug/rsdebug.cc:79-91 | a dump grows by its last line |
| Session.RecvSyscall | src/socket_recv_operation.cc:42-62 | the bytes, two terminators behind them, and the count plus two; or a write past the buffer |
| Session.RecvFitsIff | app/main.cc:49-58 | a terminator is written past the end of the caller's buffer if and only if recv filled all it was offered; otherwise the buffer holds the request as a string |
| Session.ExtractSplits | src/sharedstate.cc:34-45 | command, newline and rest are the input, and the command is its first line; without a newline nothing is taken |
| Session.ExtractCommand | src/sharedstate.cc:47-58 | both overloads |
| Session.WriteIsWhole | app/main.cc:74-74 | a request that fits the receive buffer is written to a new pipe whole, so the ignored result is harmless |
| Session.OutputIsEverything | app/main.cc:82-94 | the reads of a schedule take everything that the child wrote |
| Session.CollectsWholeIff | app/main.cc:82-94 | from any text that ends a line, the read loop adds the whole output if and only if it is well cut (while output is to come, every piece leaves room for its terminator and ends a line, and no hang-up is flagged) and the loop does not stall (every piece ends a line and the read after the last one suspends for a bare hang-up) |
| Session.CollectedIsWholeIff | app/main.cc:82-94 | the whole loop gives the whole output if and only if, besides, its first read finds something |
| Session.EndingIsExact | app/main.cc:82-94 | the exact condition of every ending: the loop goes past a read that returns something, is not flagged, leaves room for a terminator and leaves the text at the end of a line; it never returns if and only if it reaches a read that never does, reads past the buffer if and only if it reaches one that fills it, throws if and only if its first read adds no text, and otherwise has what the reads gave up to the first one that it does not go past |
| Session.LastLineStalls | app/main.cc:82-94 | a well-cut output, one line that is there at once, for which the loop never returns |
| Session.ReadLoop | app/main.cc:82-98 | the do-while loop, on the operations of the pipe, collects, stalls, reads past the buffer or throws as specified, for every schedule |
| Session.FailedSendGoesBack | app/main.cc:104-111 | after a failed send the loop repeats a byte, or, at the start, stops with nothing sent |
| Session.SendIsExactIff | app/main.cc:104-111 | a send loop that has ended has delivered exactly the reply and stopped at its end if and only if no send failed on the way |
| Session.FailuresCanHide | app/main.cc:104-111 | the delivered bytes alone do not tell: a run of sends in which three fail and the offset wraps, and yet the bytes are the reply |
| Session.RetryDuplicates | app/main.cc:107-110 | one failed send, and the client receives a byte twice |
| Session.FlawlessSlices | app/main.cc:104-111 | without failures the slices follow each other without gap or overlap |
| Session.SendLoop | app/main.cc:102-111 | the loop sends the specified slices, failed sends included |
| Session.EchoLineIsDropped | app/main.cc:100-100 | erasing up to the first newline takes exactly the command line that the child printed |
| Session.EchoLoop | app/main.cc:45-118 | from recv to the last send, for every request without NUL, every schedule of reads and every result of the sends: nothing received, the buffer overrun, no reply and why, or the bytes sent |
| Session.CollectsAPrefix | app/main.cc:82-94 | what the loop collects is a beginning of the output that contains the first piece |
| Session.ReplyIsExactIff | app/main.cc:82-100 | the reply is the client's text if and only if the reads go well, or the first read takes a text that begins like the command line and is the client's |
| Session.AnAccident | app/main.cc:82-100 | a schedule of the second kind: the request "ca", with "ca" of "cat" read first |
| Session.EchoIsFaithful | app/main.cc:45-118 | end to end, exactly: the reply is the text after the request's first newline, or the whole request if it has none, and the loop delivers just that and stops at its end, if and only if the reads go well (or by the accident above) and no send fails |

## Left out

- Safety.SafeDispatch: rests on the single-direction discipline. An echo session meets its clause on masks if and only if a reconcile pass separates its receive from its first send (`SessionDiscipline.SendIsDisciplinedIff`); whether one does depends on when the child's output arrives.
- Safety.MirrorAlways: in runs, EPOLL_CTL_ADD and EPOLL_CTL_MOD succeed; `Discipline.AttachMirrorsIffAdded` and `Discipline.ModifyMirrorsIffModified` are the exact conditions.
- Safety.OpenKeeps: as for `Safety.MirrorAlways`.
- IoContext.IOContext.ReconcileMasks: as for `Safety.MirrorAlways`; `IoContext.IOContext.ApplyMask` covers a failing EPOLL_CTL_MOD.
- IoContext.IOContext.WalkProcessed: as for `IoContext.IOContext.ReconcileMasks`.
- IoContext.IOContext.Turn: as for `IoContext.IOContext.ReconcileMasks`.
- Interleaving.ClientRunsAlone: addresses and file numbers are not passed from one client to another within the run.
- Fairness.ResumedWithinTurns: speaks of turns that are completed; a coroutine that never gives the thread back, and the time a turn takes, are outside it.
- Commands.SessionConserves: a session is one request (`client_socket_handler` runs `echo_loop` once because that always returns false) in which every EPOLL_CTL_ADD succeeds and the read loop returns; its addresses and files are not used by others until it is over, so the number of a file it has closed is not handed to another session before that.
- Commands.PipedAsyncCommand.Init: the methods of the command extend a valid run of the event loop; a whole session, which suspends and is resumed in between, is the list `Commands.SessionActs` and not one method.
- Reaping.EveryScheduleReaps: whether the loop can wake the wait early is the subject of `HangUps.ReportsStayTrue`: not unless the pidfd's descriptor got an address for which the batch still held an event. A SIGKILL sent after the child has been reaped is without effect here; whose process number it is by then is not modelled.
- Session.ReadLoop: a hang-up is flagged only when the writers have gone (`Session.ReadIsValid`), which `HangUps.ReportsStayTrue` shows unless the read end got an address for which the batch still held an event.
- Session.EchoLoop: requests contain no NUL, and the child's output is taken to be the command line and then its input. How often recv is retried is the kernel's part.
- Session.EchoIsFaithful: whether the reads go well depends on when the child's output arrives and when it exits; a child that never exits is outside the schedules.
- AwaitSimulation.DrivingIsEvaluation: coroutines are finite trees, so a loop such as that of accept stands for each of its finite unrollings.
- AwaitSimulation.FramesLiveOnce: when detach returns, the two `done()` queries on a frame that is gone are taken to agree; `AwaitSimulation.DroppingIsSafeIff` has the exact condition. The promise number that a debug line of the destructor reads is not modelled.
- Descriptors live in a map keyed by address instead of in objects of their own, since object references in Dafny are never reused and reuse is one of the hazards.
- The extra watchRead in the constructor of the listening socket, whose accept operation asks for the same bit.
- Move construction of descriptors and default-constructed tasks, which the session does not use.
- Exceptions, which `unhandled_exception` swallows, and exits on errors that nobody asked to be told of.
- Real system calls, address resolution, socket options, and the arguments and error exits of exec: only their effect on files, readiness and processes is modelled.
- `PopenAsyncCommand`, `mergestate`, `optMergeState` and `reqSync`: under development, or shell and regular-expression work.
- Logging, error categories, descriptor numbering and promise counters; restoring the stream's format flags at the end of `hex_dump`.
