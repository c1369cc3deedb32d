# Verified models of a Redox system tree

Dafny models of eight parts of the repository, each with the laws it is built to keep, proved for
every input, every run or every reachable state.

- `Wrappers.dfy`: results, error numbers and panics shared by the models.
- `LimiterState.dfy`, `LimiterProtocol.dfy`: the code generator's concurrency limiter. The counters
  are an object; the protocol is a state machine over every interleaving of acquirers, finishers,
  arriving tokens, failing token requests and spurious wake-ups, one critical section per step.
- `Proc*.dfy`: the process manager. `ProcTable` gives every request and event as a function from
  one table to the next, `ProcInvariants`, `ProcSteps`, `ProcExit` and `ProcRuns` carry the
  invariant through every run, `ProcTheorems`, `ProcReports`, `ProcOrphans`,
  `ProcCompletions` and `ProcHistory` draw the conclusions, `ProcOrphanExample` is one run in full,
  and `ProcManager` is the object that runs, with its loops, proved against the functions.
- `Chan.dfy`: the channel scheme of the IPC daemon.
- `InlineAsm.dfy`, `AsmPreservation.dfy`: register and stack-slot allocation for inline assembly and
  the emitted wrapper, run on an abstract register machine, and what it leaves of the caller's
  registers.
- `Requests.dfy`: the readiness-based request loop of the scheme library, over any scheme.
- `IntCodegen.dfy`: overflow checks, saturation, comparison and enum tags, at any width.
- `Pty.dfy`: the pseudo-terminal's line discipline and packet queues.
- `RamFs.dfy`, `RamFsPaths.dfy`: the in-memory file system's tree, path resolution and path
  printing, and what creating and removing do to every path.

Where a file of the source updates an object, the model has a class whose methods are proved equal
to a function of the old state, and the laws are proved about that function. A step that can panic
in the source (`unwrap`, `expect`, `panic!`, `assert!`) has an explicit panic outcome.

What the source leaves to its environment is a parameter and ranges over everything: the iteration
order of hash tables, which entry a lookup by group finds, which processes stop on a terminal stop
signal and which deliveries fail (`ProcTable.Choice`), the answers of a scheme (`Requests.Oracle`),
the assembly body (any function on registers), clock ticks and terminal settings.

Assumptions. Kernel status writes and event posts succeed. A kernel request tag is not used again
while its answer is outstanding. The kernel closes each live channel handle once. The assembly body
does not write to the wrapper's stack slots. Register class sizes are positive, and no register
moves more bytes than a slot of its class.

Results worth knowing when reading the source:

- The limiter's assertion in `assert_invariants` fires exactly when a thread makes a pass through
  `acquire` on an unpoisoned limiter whose announced jobs are used up.
- A signed condition code in the two-word compare is wrong exactly when the high words are equal and
  the sign bits of the low words differ. The callers use only equality and unsigned codes.
- The inline assembly wrapper does not save a register that overlaps a clobbered one, even if only in
  part. If no saved operand register covers it, the part outside the clobbered register can be lost
  for the caller.
- A control-terminal read into an empty buffer repeats the header byte inside the payload.
- Resolving a `ramfs` path panics exactly when the path ends in "." or ".." after a directory that
  the user may search. Opening panics exactly when this holds of the path for root, or of its
  directory part when a missing file is to be created; removing panics exactly when it holds of the
  directory part. Opening "." is an example.
- Everywhere else in a `ramfs` path "." and ".." are skipped alike: ".." does not go up. Two of them
  in a row never resolve.
- A `ramfs` removal drops the entry before it looks at what the entry leads to, so removing
  something of the wrong kind, or a directory that is not empty, fails and still takes it out of
  the tree.
- A completed exit continues the stopped members of the groups it orphans only where init may signal
  them. If init has given up root, a newly orphaned group can stay stopped.

## Model

| member | source | states |
|---|---|---|
| `LimiterState.AddNewTokenKeeps` | rustc_codegen_cranelift/src/concurrency_limiter.rs:152-156 | an arriving token joins the pool, of which exactly the oldest tokens that can still be used are kept, the implicit one among them |
| `LimiterState.JobFinishedKeeps` | rustc_codegen_cranelift/src/concurrency_limiter.rs:178-203 | finishing keeps the oldest usable tokens, never drops the implicit one, and leaves a free token while more jobs wait than run |
| `LimiterState.TryStartJobKeeps` | rustc_codegen_cranelift/src/concurrency_limiter.rs:157-177 | a start happens exactly when a token is free and the limiter is not poisoned, and panics exactly when no job is pending |
| `LimiterObject.ConcurrencyLimiterState.constructor` | rustc_codegen_cranelift/src/concurrency_limiter.rs:129-138 | a new limiter holds the implicit token only |
| `LimiterObject.ConcurrencyLimiterState.DropExcessCapacity` | rustc_codegen_cranelift/src/concurrency_limiter.rs:192-203 | the object step is truncation to what can still be used and then to two beyond the active jobs |
| `LimiterObject.ConcurrencyLimiterState.AddNewToken` | rustc_codegen_cranelift/src/concurrency_limiter.rs:152-156 | the object step is the specified one |
| `LimiterObject.ConcurrencyLimiterState.TryStartJob` | rustc_codegen_cranelift/src/concurrency_limiter.rs:157-177 | the object step is the specified one, with its three outcomes |
| `LimiterObject.ConcurrencyLimiterState.JobFinished` | rustc_codegen_cranelift/src/concurrency_limiter.rs:178-186 | the object step is the specified one |
| `LimiterObject.ConcurrencyLimiterState.Poison` | rustc_codegen_cranelift/src/concurrency_limiter.rs:187-191 | the object step is the specified one |
| `LimiterProtocol.StepKeeps` | rustc_codegen_cranelift/src/concurrency_limiter.rs:22-38 | every critical section keeps the protocol invariant |
| `LimiterProtocol.EveryRunLosesNoWakeup` | rustc_codegen_cranelift/src/concurrency_limiter.rs:48-78 | in every interleaving, while someone sleeps the free tokens are covered by notifications in flight, and the implicit token is held |
| `LimiterProtocol.AssertionFiresExactly` | rustc_codegen_cranelift/src/concurrency_limiter.rs:139-146 | a step panics if and only if it is an acquire pass on an unpoisoned limiter with no pending job |
| `LimiterProtocol.WithinBudgetNeverPanics` | rustc_codegen_cranelift/src/concurrency_limiter.rs:139-203 | with at most the announced number of acquires no run panics |
| `LimiterProtocol.BlockedImpliesProgress` | rustc_codegen_cranelift/src/concurrency_limiter.rs:105-111 | a blocked acquirer implies an active job whose finish gives the notified thread a token |
| `LimiterProtocol.FinishHandsOver` | rustc_codegen_cranelift/src/concurrency_limiter.rs:105-111 | after a finish the notified thread starts |
| `LimiterProtocol.FinishedAssertsExactly` | rustc_codegen_cranelift/src/concurrency_limiter.rs:80-89 | the closing assertions hold if and only if every announced job has finished |
| `LimiterProtocol.CanAlwaysDrain` | rustc_codegen_cranelift/src/concurrency_limiter.rs:48-78 | no deadlock: every run within the budget can be driven to rest without further tokens |
| `ProcSteps.ForkKeeps` | bootstrap/src/procmgr.rs:652-731 | fork keeps the whole invariant of the table |
| `ProcSteps.NewThreadKeeps` | bootstrap/src/procmgr.rs:732-768 | a new thread keeps the invariant |
| `ProcSteps.SetpgidKeeps` | bootstrap/src/procmgr.rs:1160-1223 | setpgid keeps the invariant, session leaders included |
| `ProcSteps.SetsidSucceedsExactly` | bootstrap/src/procmgr.rs:1090-1128 | setsid succeeds if and only if the caller exists, is not init and its pid names no group; a failure changes nothing |
| `ProcSteps.SetsidIsFresh` | bootstrap/src/procmgr.rs:1116-1124 | after success the caller is alone in a new group and session and nobody else moved |
| `ProcSteps.MoveGroupSpec` | bootstrap/src/procmgr.rs:1224-1259 | moving a process between groups leaves every other membership as it was and no group empty |
| `ProcExit.ReparentSpec` | bootstrap/src/procmgr.rs:1750-1762 | exactly the children move to init, and their uncollected statuses go along |
| `ProcExit.FinishExitKeeps` | bootstrap/src/procmgr.rs:1707-1828 | completing an exit keeps the invariant |
| `ProcExit.WorkOnTermKeeps` | bootstrap/src/procmgr.rs:1674-1841 | every outcome of a termination wake-up keeps the invariant |
| `ProcExit.ReapKeeps` | bootstrap/src/procmgr.rs:1495-1526 | reaping keeps the invariant and leaves no empty group |
| `ProcExit.WaitpidKeeps` | bootstrap/src/procmgr.rs:1344-1494 | every outcome of waitpid keeps the invariant |
| `ProcRuns.ExitRequestKeeps` | bootstrap/src/procmgr.rs:1260-1343 | accepting or refusing an exit keeps the invariant |
| `ProcRuns.CancelKeeps` | bootstrap/src/procmgr.rs:260-292 | cancellation hands a pending exit to an internal id without losing it |
| `ProcRuns.ThreadEventKeeps` | bootstrap/src/procmgr.rs:130-184 | a thread's death wakes the exit it was blocking or starts one |
| `ProcRuns.WakeNextKeeps` | bootstrap/src/procmgr.rs:72-95 | a turn of the wake-up loop keeps the invariant |
| `ProcRuns.RunKeeps` | bootstrap/src/procmgr.rs:70-188 | every sequence of requests, thread deaths and wake-ups keeps the invariant |
| `ProcTheorems.ExitsComplete` | bootstrap/src/procmgr.rs:70-97 | whenever the manager blocks for an event, no process without threads is still exiting, and each unfinished exit is parked with its process |
| `ProcTheorems.TableStaysCoherent` | bootstrap/src/procmgr.rs:635-642 | in every run each process is in exactly its group, once; no group is empty; session leaders lead their group; parents are older |
| `ProcTheorems.ParentChainsDescend` | bootstrap/src/procmgr.rs:581-585 | parent links never lead back |
| `ProcTheorems.StatusesAreFinal` | bootstrap/src/procmgr.rs:1279-1319 | in every run and continuation Exiting and Exited are never left, and a pid's accepted exit never changes |
| `ProcTheorems.WordsAreUnambiguous` | bootstrap/src/procmgr.rs:1382-1405 | a status word decodes to the one event it was made from |
| `ProcTheorems.TerminationReportsAreTrue` | bootstrap/src/procmgr.rs:1398-1404 | in every run an answer that reads as a termination names a process whose exit was accepted with exactly that signal and status |
| `ProcHistory.EventsHappened` | bootstrap/src/procmgr.rs:1818-1827 | in every run whatever a wait could report about a process, a filed status or the exit in its record, happened to that process at some step of the run |
| `ProcHistory.ReportsAreTrue` | bootstrap/src/procmgr.rs:1382-1405 | in every run a wait answer decodes to a stop by that signal, a continue of the stopped process or an end with that signal and status, and that happened to the named process at an earlier step |
| `ProcReports.FilingWakes` | bootstrap/src/procmgr.rs:1818-1827 | filing a status puts it where the parent looks, wakes everyone waiting there and loses no other wait |
| `ProcReports.ExitIsReported` | bootstrap/src/procmgr.rs:1710-1828 | completing the exit of an exiting process leaves its parent the termination with the signal and status of that exit, wakes all the parent's waiters and loses no other wait |
| `ProcReports.SignalsChangeExactly` | bootstrap/src/procmgr.rs:2067-2213 | exactly which signals stop or continue exactly which process, orphaned groups being exempt from terminal stops |
| `ProcTheorems.WakeNextDecreases` | bootstrap/src/procmgr.rs:72-95 | every turn of the wake-up loop decreases exiting processes, then queue length |
| `ProcOrphans.ExitContinuesExactlyNewOrphans` | bootstrap/src/procmgr.rs:1730-1814 | completing an exit continues exactly the stopped members of the groups it orphaned, of those init may signal |
| `ProcOrphans.ExitAdopts` | bootstrap/src/procmgr.rs:1730-1762 | completing an exit hands exactly the children to init if init and the parent are there; otherwise nobody changes parents |
| `ProcCompletions.Completion` | bootstrap/src/procmgr.rs:70-188 | of all requests and events only a turn of the wake-up loop and the death of a last thread complete an exit, and both do it from a table where the exit is accepted and no thread is left |
| `ProcCompletions.NewOrphansAreContinued` | bootstrap/src/procmgr.rs:1730-1814 | at any point of any run, whichever step completes an exit, exactly the stopped members of the groups it orphaned are continued, of those init may signal |
| `ProcCompletions.NewOrphansLeftStoppedExactly` | bootstrap/src/procmgr.rs:1763-1813 | in every run a member of a newly orphaned group is left stopped if and only if it was stopped and init may not signal it |
| `ProcOrphanExample.OrphansCanStayStopped` | bootstrap/src/procmgr.rs:1785-1798 | a run from boot in which init gives up root and a newly orphaned group keeps its stopped member |
| `ProcCompletions.CompletedExitsHandOverChildren` | bootstrap/src/procmgr.rs:1730-1762 | in every run, whichever step completes an exit, exactly the children become init's, if init and the parent are there; otherwise nobody changes parents |
| `ProcCompletions.CompletedExitsAreReported` | bootstrap/src/procmgr.rs:1710-1828 | in every run, whichever step completes an exit, the process ends with the accepted signal and status, and a parent that is there finds exactly that and has all its waiters woken |
| `ProcManager.WakeRunKeeps` | bootstrap/src/procmgr.rs:72-95 | draining the queues keeps the invariant |
| `ProcManager.ProcScheme.Boot` | bootstrap/src/procmgr.rs:586-651 | the object starts with init alone |
| `ProcManager.ProcScheme.Fork` | bootstrap/src/procmgr.rs:652-731 | the object step is the specified one, errors included |
| `ProcManager.ProcScheme.ChangePgid` | bootstrap/src/procmgr.rs:1224-1259 | the object step is the specified one |
| `ProcManager.ProcScheme.Setsid` | bootstrap/src/procmgr.rs:1090-1128 | the scan over all processes decides as specified, in any order |
| `ProcManager.ProcScheme.Setpgid` | bootstrap/src/procmgr.rs:1160-1223 | the object step is the specified one |
| `ProcManager.ProcScheme.PgrpIsOrphaned` | bootstrap/src/procmgr.rs:2491-2521 | the loop computes whether every member votes "orphaned" |
| `ProcManager.ProcScheme.SendSig` | bootstrap/src/procmgr.rs:1997-2160 | permission, stop, continue and orphan rules as specified |
| `ProcManager.ProcScheme.SendMany` | bootstrap/src/procmgr.rs:1908-1996 | the kill loop is the specified fold over the processes |
| `ProcManager.ProcScheme.ReparentChildren` | bootstrap/src/procmgr.rs:1751-1762 | the loop is the specified fold |
| `ProcManager.ProcScheme.ContinueMembers` | bootstrap/src/procmgr.rs:1773-1811 | the loop is the specified fold |
| `ProcManager.ProcScheme.OrphanStep` | bootstrap/src/procmgr.rs:1730-1814 | collecting children, remembering which groups were orphaned, moving and continuing, as specified |
| `ProcManager.ProcScheme.WorkOnTerm` | bootstrap/src/procmgr.rs:1674-1841 | the object step is the specified one |
| `ProcManager.ProcScheme.Reap` | bootstrap/src/procmgr.rs:1495-1526 | the object step is the specified one |
| `ProcManager.ProcScheme.Waitpid` | bootstrap/src/procmgr.rs:1344-1494 | the object step is the specified one for all four targets |
| `ProcManager.ProcScheme.WorkOn` | bootstrap/src/procmgr.rs:1664-1874 | the object step is the specified one |
| `ProcManager.ProcScheme.ExitStart` | bootstrap/src/procmgr.rs:1260-1343 | the object step is the specified one |
| `ProcManager.ProcScheme.Cancel` | bootstrap/src/procmgr.rs:260-292 | the object step is the specified one |
| `ProcManager.ProcScheme.ThreadEvent` | bootstrap/src/procmgr.rs:130-184 | the object step is the specified one |
| `ProcManager.ProcScheme.DrainAwoken` | bootstrap/src/procmgr.rs:72-95 | the two-queue loop terminates with both queues empty and is a first-in first-out run of the specified turns |
| `ChanTheorems.StepKeeps` | ipcd/src/chan.rs:127-388 | no step panics, and every step keeps the invariant |
| `ChanTheorems.NoRunPanics` | ipcd/src/chan.rs:147-150 | no run reaches an unwrap of nothing, an expect or a panic |
| `ChanTheorems.LinksAreMutual` | ipcd/src/chan.rs:182-194 | in every run a client is linked to b exactly when b is a live, distinct client linked back; a live queued id is an unlinked client in no other queue |
| `ChanTheorems.SkipsExactlyTheDead` | ipcd/src/chan.rs:175-185 | accepting skips the closed clients in front of the queue and nothing else |
| `ChanTheorems.AcceptLinksFirstLive` | ipcd/src/chan.rs:169-211 | in every run accepting links the first client still alive with the new handle, and the clients behind it keep their places |
| `ChanTheorems.StreamIsExact` | ipcd/src/chan.rs:260-294 | in every run what the peer was told it wrote is what was read followed by the buffer, in order |
| `ChanTheorems.EndOfFileIsExact` | ipcd/src/chan.rs:315-339 | a read into a non-empty buffer returns nothing if and only if the peer is closed and everything it wrote was read |
| `ChanTheorems.ReadinessIsComplete` | ipcd/src/chan.rs:389-408 | in every run each readiness flag a surviving handle gains in a step is posted to it in that step |
| `ChanObject.ChanScheme.Attach` | ipcd/src/chan.rs:212-232 | queueing a new client is as specified and keeps the object valid |
| `ChanObject.ChanScheme.Open` | ipcd/src/chan.rs:127-166 | the object step is the specified one; the lookup behind `expect` succeeds |
| `ChanObject.ChanScheme.FirstLive` | ipcd/src/chan.rs:170-185 | the accept loop finds the first client still alive |
| `ChanObject.ChanScheme.Accept` | ipcd/src/chan.rs:169-211 | the object step is the specified one; the remote is a client |
| `ChanObject.ChanScheme.Dup` | ipcd/src/chan.rs:167-252 | the object step is the specified one for every argument |
| `ChanObject.ChanScheme.Write` | ipcd/src/chan.rs:260-294 | the object step is the specified one; the unwrapped remote is there |
| `ChanObject.ChanScheme.Read` | ipcd/src/chan.rs:315-339 | the object step is the specified one |
| `ChanObject.ChanScheme.Close` | ipcd/src/chan.rs:340-370 | the object step is the specified one; the unwrapped remote is there |
| `AsmAllocation.TakeExplicit` | rustc_codegen_cranelift/src/inline_asm.rs:252-274 | explicit registers are recorded without clashes |
| `AsmAllocation.FirstFree` | rustc_codegen_cranelift/src/inline_asm.rs:287-302 | the first register of the pool nothing is in the way of, every earlier one being blocked; if none, each overlaps one that is live with the operand |
| `AsmAllocation.TakeFromClasses` | rustc_codegen_cranelift/src/inline_asm.rs:276-359 | each pass gives every operand of the pass a register of its class and keeps operands live together apart |
| `AsmAllocation.AllocateRegisters` | rustc_codegen_cranelift/src/inline_asm.rs:241-362 | every operand has a register it asked for and operands live at the same time do not overlap; failure means an exhausted class |
| `AsmAllocation.AlignTo` | rustc_codegen_cranelift/src/inline_asm.rs:377-380 | the smallest multiple at or above the offset |
| `AsmAllocation.PlaceSlots` | rustc_codegen_cranelift/src/inline_asm.rs:370-382 | slots are aligned, in bounds, in order and disjoint |
| `AsmAllocation.AllocateStackSlots` | rustc_codegen_cranelift/src/inline_asm.rs:364-462 | slots are aligned, in bounds and disjoint except inputs against outputs; in-out operands share one slot |
| `AsmWrapper.GenerateAsmWrapper` | rustc_codegen_cranelift/src/inline_asm.rs:497-628 | the emitted code is save, load, body, store, restore |
| `AsmWrapper.InputsReachTheBody` | rustc_codegen_cranelift/src/inline_asm.rs:509-517 | when the body starts every input value the caller stored is in its register, with or without return |
| `AsmWrapper.OutputsReachTheCaller` | rustc_codegen_cranelift/src/inline_asm.rs:604-613 | when the wrapper returns every output slot holds what the body left in the register |
| `AsmWrapper.SavedRegistersAreRestored` | rustc_codegen_cranelift/src/inline_asm.rs:615-623 | whatever the body did, every saved register is as the caller had it |
| `AsmWrapper.UnitsAtReturn` | rustc_codegen_cranelift/src/inline_asm.rs:604-623 | when the wrapper returns a part of a saved register is as the caller had it, and any other part of the register file is as the body left it |
| `AsmPreservation.PreservedExactly` | rustc_codegen_cranelift/src/inline_asm.rs:497-628 | no body that writes to its operands only can change a part of the register file for the caller if and only if no operand has that part or a saved register has it |
| `AsmPreservation.LostExactly` | rustc_codegen_cranelift/src/inline_asm.rs:384-412 | for every allocation and layout a part can be lost if and only if some operand has it and every operand register that has it overlaps a clobbered register |
| `AsmPreservation.PartlyClobberedIsLost` | rustc_codegen_cranelift/src/inline_asm.rs:393-412 | an output in a register that overlaps a clobbered one can lose each part of it, clobbered or not |
| `AsmPreservation.ExpectedUnitIsLost` | rustc_codegen_cranelift/src/inline_asm.rs:393-412 | a register file in which a part the caller expects back is lost |
| `AsmWrapper.StoredValues` | rustc_codegen_cranelift/src/inline_asm.rs:836-842 | the caller's stores do not overwrite one another |
| `AsmWrapper.CodegenInlineAsm` | rustc_codegen_cranelift/src/inline_asm.rs:166-224 | allocation, layout and emission together establish all that the three results need |
| `Requests.RequestsAreConserved` | redox-scheme/src/wrappers.rs:49-117 | for every scheme and run each request wanting an answer is unprocessed, parked, queued or written, in one place only; nothing parked is non-blocking |
| `Requests.CancelledOnce` | redox-scheme/src/wrappers.rs:59-65 | wherever the invariant holds a cancelled parked request is answered once, with ECANCELED, without asking the scheme, and any other cancellation does nothing |
| `Requests.BatchKeeps` | redox-scheme/src/wrappers.rs:56-116 | the invariant holds between any two requests of a batch, and the rest of the batch leads where the whole batch leads |
| `Requests.CancelledInBatch` | redox-scheme/src/wrappers.rs:56-65 | in every run a request parked earlier, or earlier in the same batch, and then cancelled is answered once, with ECANCELED |
| `Requests.PollAllPollsEachOnce` | redox-scheme/src/wrappers.rs:154-180 | polling everything asks once for each parked request, for nothing else, and never fails |
| `Requests.AnswersAreGenuine` | redox-scheme/src/wrappers.rs:102-115 | answers are never lost or reordered, and each comes from a call made for its request or from its cancellation or unsupported opcode |
| `RequestsObject.ReadinessBased.ProcessRequests` | redox-scheme/src/wrappers.rs:49-117 | the drain loop is the specified fold |
| `RequestsObject.ReadinessBased.PollRequestInner` | redox-scheme/src/wrappers.rs:134-153 | the object step is the specified one, EIO included |
| `RequestsObject.ReadinessBased.PollReadyRequests` | redox-scheme/src/wrappers.rs:154-170 | the drain loop is the specified fold and stops at the first error |
| `RequestsObject.ReadinessBased.PollAllRequests` | redox-scheme/src/wrappers.rs:171-180 | the queue is an enumeration of the parked requests |
| `RequestsObject.ReadinessBased.WriteResponses` | redox-scheme/src/wrappers.rs:181-194 | a prefix of the queue is written and removed |
| `IntArithmetic.AddIsChecked` | rustc_codegen_cranelift/src/num.rs:213-226 | the overflow bit is set exactly when the exact sum does not fit |
| `IntArithmetic.SubIsChecked` | rustc_codegen_cranelift/src/num.rs:227-240 | the overflow bit is set exactly when the exact difference does not fit |
| `IntArithmetic.MulNarrowIsChecked` | rustc_codegen_cranelift/src/num.rs:248-273 | the double-width test is set exactly when the exact product does not fit |
| `IntArithmetic.MulWordIsChecked` | rustc_codegen_cranelift/src/num.rs:274-293 | the high-word test is set exactly when the exact product does not fit |
| `IntArithmetic.CheckedIsExact` | rustc_codegen_cranelift/src/num.rs:201-305 | for every operator, width and signedness: value, overflow bit, and the exact result when there is none |
| `IntBounds.BoundsAreRight` | rustc_codegen_cranelift/src/common.rs:167-224 | the constants are the bits of the smallest and largest value of the type |
| `IntBounds.SaturatingClamps` | rustc_codegen_cranelift/src/num.rs:307-341 | saturating add and sub are the exact result clamped to the type |
| `IntBounds.CompareHalvesExactly` | rustc_codegen_cranelift/src/common.rs:105-147 | the two-word compare is right if and only if the code is not signed or the low words' signs agree or the high words differ |
| `IntBounds.SignedCompareCanBeWrong` | rustc_codegen_cranelift/src/common.rs:129-141 | an input on which a signed two-word compare is wrong |
| `IntBounds.ThreeWayIsSign` | rustc_codegen_cranelift/src/num.rs:44-58 | the three-way compare is the sign of the difference |
| `Discriminants.CompareImmExactly` | rustc_codegen_cranelift/src/common.rs:105-147 | at every width the compare with an immediate is the plain compare, for unsigned codes |
| `Discriminants.SetNicheIsTag` | rustc_codegen_cranelift/src/discriminant.rs:49-71 | the stored tag is the niche start plus the variant's offset, going around |
| `Discriminants.GetNicheExactly` | rustc_codegen_cranelift/src/discriminant.rs:135-214 | the decoded variant as a function of the tag's distance from the niche start, shortcut included |
| `Discriminants.NicheRoundTrip` | rustc_codegen_cranelift/src/discriminant.rs:49-71 | decoding after encoding gives the variant back, for every width, start, range and untagged variant |
| `Discriminants.UntaggedExactly` | rustc_codegen_cranelift/src/discriminant.rs:138-150 | a tag decodes to the untagged variant if and only if it is no tagged variant's tag |
| `Discriminants.DirectRoundTrip` | rustc_codegen_cranelift/src/discriminant.rs:25-48 | a direct tag gives the discriminant back if and only if the discriminant fits the tag |
| `PtyTheorems.ChunkingIsIrrelevant` | ptyd/src/pty.rs:65-222 | in canonical mode the state after input does not depend on how the bytes were cut |
| `PtyTheorems.CanonicalInputIsLineEditing` | ptyd/src/pty.rs:81-150 | canonical input is the line-editing specification: lines, unfinished line, erase by nearest surviving character |
| `PtyTheorems.EchoIsExact` | ptyd/src/pty.rs:81-218 | in every mode the screen is sent exactly the echo of what was typed: characters and line ends as ECHO and ECHONL ask, a rub-out under ECHOE for an erase that had something to erase |
| `PtyTheorems.NoEchoHidesCharacters` | ptyd/src/pty.rs:81-218 | without ECHO only a newline under ECHONL and rub-outs under ECHOE are shown |
| `PtyTheorems.PendingErases` | ptyd/src/pty.rs:126-134 | matching erases from the end is the same as popping one by one |
| `PtyTheorems.UpdateKeeps` | ptyd/src/pty.rs:245-310 | update never changes what the slave will get |
| `PtyTheorems.SlaveReadKeeps` | ptyd/src/subterm.rs:47-76 | what a slave read returns plus what waits is what waited |
| `PtyTheorems.NothingIsLost` | ptyd/src/pty.rs:245-318 | for every sequence of raw inputs, updates, ticks and reads, the last three in any modes, delivered, queued and unfinished bytes are what they were followed by every character typed |
| `PtyTheorems.LinesAreDelivered` | ptyd/src/pty.rs:41-222 | for every sequence of inputs, updates, ticks and reads in canonical mode, delivered and queued bytes are what was queued followed by the finished lines of everything typed, and the rest is the unfinished line |
| `PtyTheorems.RawInputAdds` | ptyd/src/pty.rs:209-218 | outside canonical mode input adds exactly the characters typed |
| `PtyTheorems.MasterReadKeeps` | ptyd/src/controlterm.rs:43-64 | a read into a non-empty buffer splits the tagged payload and loses nothing |
| `PtyTheorems.EmptyReadRepeatsHeader` | ptyd/src/controlterm.rs:56-62 | payload survives a read if and only if the buffer is not empty or nothing is queued |
| `PtyTheorems.MasterReadProgress` | ptyd/src/controlterm.rs:43-64 | two bytes of buffer always make progress |
| `PtyTheorems.OutputIsReassembled` | ptyd/src/controlterm.rs:43-64 | for every mix of writes, syncs and reads the stripped chunks followed by the queue are the post-processed output, each byte under its header |
| `PtyTheorems.PostProcessingIsInvertible` | ptyd/src/pty.rs:224-243 | post-processing loses nothing |
| `PtyObject.Terminal.Output` | ptyd/src/pty.rs:224-243 | the loop builds the specified packet |
| `PtyObject.Terminal.InputCanonical` | ptyd/src/pty.rs:82-150 | the chain of rules is the specified classification |
| `PtyObject.Terminal.InputSignals` | ptyd/src/pty.rs:152-197 | the chain of rules is the specified classification |
| `PtyObject.Terminal.InputByte` | ptyd/src/pty.rs:66-218 | one byte acts as classified |
| `PtyObject.Terminal.Input` | ptyd/src/pty.rs:41-222 | the byte loop is the specified fold |
| `PtyObject.Terminal.Update` | ptyd/src/pty.rs:245-310 | the object step is the specified one |
| `PtyObject.Terminal.Timeout` | ptyd/src/pty.rs:312-318 | the object step is the specified one |
| `PtyObject.Terminal.Copy` | ptyd/src/subterm.rs:56-61 | the index loop copies the front of the packet and nothing else |
| `PtyObject.Terminal.SlaveRead` | ptyd/src/subterm.rs:47-76 | buffer and queues end as specified |
| `PtyObject.Terminal.MasterRead` | ptyd/src/controlterm.rs:43-70 | buffer and queues end as specified |
| `RamFsTheorems.ResolvePanicsExactly` | ramfs/src/filesystem.rs:104-132 | for every user resolving panics if and only if the path ends in dots after a directory that user may search |
| `RamFsTheorems.OpenPanicsExactly` | ramfs/src/scheme.rs:151-241 | opening panics if and only if the path ends so for root, or is to be created and its directory part ends so for the user |
| `RamFsTheorems.RemovePanicsExactly` | ramfs/src/scheme.rs:39-43 | removing panics if and only if the directory part of the path ends so for the user |
| `RamFsTheorems.OpeningDotPanics` | ramfs/src/filesystem.rs:104-132 | opening "." on a fresh file system panics for every user and flags |
| `RamFsTheorems.CreatingBelowDotPanics` | ramfs/src/scheme.rs:159-168 | so does creating "./n" |
| `RamFsTheorems.RunKeeps` | ramfs/src/scheme.rs:164-231 | in every run non-root parents have smaller inode numbers, each inode has at most one entry, and names are proper |
| `RamFsTheorems.ResolveIsWalk` | ramfs/src/filesystem.rs:95-134 | without dots the resolving loop, run by root, follows the entries |
| `RamFsTheorems.ComponentsOfPrinted` | ramfs/src/filesystem.rs:158-161 | cutting printed text at slashes gives the names back |
| `RamFsTheorems.PrintedPathsResolve` | ramfs/src/scheme.rs:416-460 | in every run the printed path of an inode, resolved by root, is that inode |
| `RamFsPaths.ResolveExactly` | ramfs/src/filesystem.rs:95-134 | root's resolving succeeds with an inode if and only if every part of dots is followed by a name and the names without the dots lead to that inode |
| `RamFsPaths.ResolvedPathsPrint` | ramfs/src/scheme.rs:416-460 | in every run and for every user, what resolves to an inode is, without its dots, the printed path of that inode |
| `RamFsPaths.CreatedIsFound` | ramfs/src/scheme.rs:159-233 | in every run a creating open makes its path lead to the new inode and changes no other path |
| `RamFsPaths.RemovalExactly` | ramfs/src/scheme.rs:39-107 | in every run a removal that finds its entry makes exactly that path and those below it stop resolving, whether it answers Ok or fails on what the entry led to; it is Ok if and only if that was of the kind asked for and empty; any other removal changes nothing |
| `RamFsObject.Scheme.ResolveGeneric` | ramfs/src/filesystem.rs:95-134 | the loop that edits its list of parts is the specified function, panics included |
| `RamFsObject.Scheme.OpenExisting` | ramfs/src/scheme.rs:109-147 | the object step is the specified one |
| `RamFsObject.Scheme.Create` | ramfs/src/scheme.rs:159-233 | the object step is the specified one, leaving the inode behind when the parent is no directory |
| `RamFsObject.Scheme.Open` | ramfs/src/scheme.rs:151-241 | the object step is the specified one |
| `RamFsObject.Scheme.FPath` | ramfs/src/scheme.rs:416-460 | the walk terminates; it prints a path if there is one that fits, panics if it does not fit, and fails if and only if there is none |
| `RamFsObject.Scheme.RemoveDentry` | ramfs/src/scheme.rs:39-107 | the object step is the specified one |
| `RamFsObject.Scheme.OnClose` | ramfs/src/scheme.rs:580-590 | the object step is the specified one |

## Left out

- Process manager: signal pages, pending bits, real-time queues, gids, names, namespaces, handles and `ps` output have no part in the table and appear only through `ProcTable.Choice`.
- Process manager: process records are values in a table; shared mutable records and weak references are not modelled.
- Process manager: completeness of waits and exactly-once delivery of statuses do not hold of the code (a status nobody asked for is consumed, and reparenting merges the child's own map), so they are not claimed.
- Process manager: the index computed from signal number 0, which underflows unused in a release build.
- Process manager: the reply code of `kill` to several targets.
- Process manager: groups are not claimed to stay within one session, because setpgid does not check it.
- `ProcTable.GroupEntry`: a lookup by group may return any matching entry or none, because the ordering of wait keys is total only on keys with a pid.
- Limiter: the jobserver client itself; tokens are numbers that arrive or fail.
- Channels: `fpath` and `fsync`, and wrap-around of handle ids.
- Inline assembly: the text of the emitted code, per-architecture prologues and epilogues, and values wider than the register they are moved through.
- Request loop: reading from and writing to the socket beyond "any batch" and "any prefix".
- Integers: 128-bit multiplication, division and floats, which are library calls; single-variant layouts.
- `Discriminants.GetNiche`: for a single tagged variant read into 128 bits the source asks for one 128-bit constant; the model has the value of that constant and does not say whether the code generator accepts it.
- Pty: limits on queue length, events, window size and process-group ioctls.
- RamFs: file contents, times, `getdents` and statistics.
