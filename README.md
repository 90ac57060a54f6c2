# Nanvix kernel core in Dafny

This project models the kernel-side bookkeeping of the Nanvix teaching
operating system: threads, semaphores and cores. It proves properties of
that model.

The kernel state is one `Kernel` object (module `KernelState`). It holds:
- the process, thread and per-core tables (arrays of records);
- the semaphore table (a `SemTable` object);
- the scalar globals `curr_proc`, `curr_core`, `smp_enabled`, `release_cpu`, `serving_ipis`, `ticks` and the `yield` function pointer.

Calls into collaborators whose code is not modelled are appended to `events`. So are writes to device registers and I/O ports. These collaborators are the scheduler, `wakeup`, `yield`, `clear_thread`, `freesem`, the inode layer, `switch_to` and the relayed system call or exception handler. Each operation is a method over the `Kernel`. Its postcondition ties the new state to a specification function of the old state, and lemmas prove what those functions promise.

The modelled parts:
- **Inter-core relay** (or1k OMPIC, module `Ompic`):
  - A slave stamps its current thread's relay record and interrupts the master.
  - The master serves the first pending, running thread of the current process. It runs the request with `curr_core` set to the requester, then releases the thread that the core named by `curr_core` is to run next.
  - A slave acts on SCHEDULE (SCHEDULE takes precedence) or on IDLE.
- **Thread join** (module `PthreadJoin`): the walk of the thread table, the order of the checks, reaping, and waiting.
- **Semaphores**:
  - `sempost` (module `SemPost`): ownership search, wrap-around increment, and wakeup exactly when the value becomes 1.
  - `semclose` (module `SemClose`): count decrement and conditional free.
  - The predicates and constants of the semaphore header (module `Sem`).
- **Clock** (i386, module `Clock`):
  - tick counting and kernel/user time accounting;
  - the quantum countdown, with its yield;
  - the 16-bit divisor written to the Intel 8254 timer as a low byte, then a high byte, after control word 0x36.
- **Process definitions** (module `Pm`): validity, superuser, leader and kernel-mode predicates; state codes; reserved slots; region slots.
- **Core start-up**:
  - or1k (module `SmpOr1k`): the release sequence of the secondary cores, the core records, and the choice of `yield`.
  - i386 (module `SmpI386`): a single core.
- **Memory regions** (module `Region`): the flag bits, the dimensions, the `withinreg` test with unsigned wrap-around, and the `MRTAB` index.

Integers are modelled at their C width where the code depends on it:
- `ticks`, `utime`, `ktime` and region addresses are 32-bit unsigned values that wrap;
- the semaphore value is a `short` that wraps from 32767 to -32768;
- the timer divisor is reduced modulo 2^16;
- relay messages and flag words are bit-vectors.

Some constants are defined in headers that are not part of this model. This model assumes these values:

| constant | value |
|---|---|
| PROC_MAX | 64 |
| THRD_MAX | 64 |
| SEM_OPEN_MAX | 16 |
| SEM_VALUE_MAX | 32767 |
| CORE_MASTER | 0 |
| IPI_SYSCALL | 1 |
| IPI_EXCEPTION | 2 |
| IPI_SCHEDULE | 4 |
| IPI_IDLE | 8 |
| PGTAB_SIZE | 4 MiB |
| PIT_FREQUENCY | 1193182 Hz |
| PIT_CTRL | port 0x43 |
| PIT_DATA | port 0x40 |

Error codes are named values, not numbers: ESRCH, EINVAL, -1 and SEM_FAILED.

Several behaviours are modelled as the code has them, even where a comment beside the code says otherwise:
- **Relay with nothing pending.** The comment at `ompic.c:124-127` says that a duplicated interrupt, with no thread found, is discarded. But when the master finds no pending thread, the duplicate test at `ompic.c:129` reads the fields of the NULL pointer that ended the scan. The model returns `NullDereference(129)` and changes nothing. The "discard the duplicate" branch therefore has no non-faulting way in.
- **NULL `next_thread` in a relay.** The reads at `ompic.c:164`, `176` and `179` also fault on a NULL `next_thread`, but later in the handler, so the model keeps what happened before the fault. At line 164 the relayed call has run, is recorded, and `curr_core` is CORE_MASTER. At line 176 nothing has run and `curr_core` is the requester. At line 179 the exception handler has run, is recorded, and `curr_core` is the value the handler left.
- **`semclose` free condition.** The semaphore is freed when the count reaches 0 and `unlinked` is 0. A semaphore marked unlinked is never freed by a close. The comment at `semclose.c:32-35` says the opposite: that the semaphore goes away at the last close only if it has been unlinked.
- **`semclose` fields.** `semclose` uses the fields `nbproc` and `unlinked` and the call `freesem(idx)`. The `struct ksem` of `sem.h` does not declare those fields, and `sem.h` declares `freesem` as taking a `struct ksem *`. The record here carries both fields, and the free is recorded with the index.
- **`SEM_IS_FREE`.** The macro assigns 0 to the slot's inode number and so always answers false.
- **Quantum counter.** It is not kept from going negative. A thread whose counter is 0 or below when a user-mode tick arrives counts on down and never yields.

## Model

| member | source | states |
|---|---|---|
| Base.IncU32 | src/kernel/arch/i386/clock.c:41 | an `unsigned` increment adds one, except that 2^32-1 wraps to 0 |
| Base.SubU32 | include/nanvix/region.h:124 | unsigned subtraction is exact when it does not go below 0 and wraps by 2^32 otherwise |
| Base.AddU32 | include/nanvix/region.h:126 | unsigned addition is exact below 2^32 and wraps by 2^32 otherwise |
| Base.IncShort | src/kernel/sys/sempost.c:39 | a `short` increment, converted back to `short` modulo 2^16, adds one, except that 32767 wraps to -32768 |
| Threads.Released | src/kernel/arch/or1k/ompic.c:164-165 | a released thread has its waiting flag cleared and its release flag set, so it is no longer pending; its other fields and the rest of its relay record are unchanged |
| Pm.ProcStatesAreDistinctCodes | include/nanvix/pm.h:83-89 | the seven process states are the distinct codes 0..6, and DEAD is 0 |
| Pm.ValidityByState | include/nanvix/pm.h:246-247 | every non-DEAD process is valid; a DEAD one is valid exactly when bit PROC_NEW of its flags is set |
| Pm.SuperuserIgnoresOtherCredentials | include/nanvix/pm.h:257-258 | superuser rights hold exactly when the real or the effective user ID is SUPERUSER (0); the saved and group IDs play no part |
| Pm.LeaderIsOwnGroup | include/nanvix/pm.h:237 | when process IDs are unique among valid slots and both the process and the slot its group reference names are valid, a process leads its group exactly when its group reference is its own slot |
| Pm.SlotLayout | include/nanvix/pm.h:52-61 | IDLE is slot 0 and is not a user slot; INIT and FIRST_PROC are slot 1; LAST_PROC is PROC_MAX-1; the user slots are every slot but IDLE |
| Pm.KernelModeIsNestedInterrupt | include/nanvix/pm.h:228 | KERNEL_WAS_RUNNING depends on the interrupt level alone: false at level 1 or below, true at every deeper level, the same for two threads at the same level |
| Pm.PregIndex | include/nanvix/pm.h:215-217 | TEXT, DATA and HEAP name `pregs` entries below NR_PREGIONS |
| Pm.PregIndexIsBijective | include/nanvix/pm.h:215-217 | TEXT, DATA and HEAP are distinct entries and together cover exactly 0, 1 and 2 |
| Region.RegionFlagsAreDistinctBits | include/nanvix/region.h:32-37 | each of the six region flags is a single bit, and no two flags share it |
| Region.RegionDimensions | include/nanvix/region.h:40-49 | a region is MREGIONS mini regions of REGION_PGTABS page tables, and a mini region spans the 2^26 bytes of one MRTAB index |
| Region.WithinUpwardRegion | include/nanvix/region.h:125-126 | for an upward region that does not wrap, `withinreg` is the half-open range [start, start+size) |
| Region.WithinDownwardRegion | include/nanvix/region.h:122-124 | for a downward region that does not wrap, `withinreg` is the closed range [start-size, start] |
| Region.WrappedRegionContainsNothing | include/nanvix/region.h:121-126 | when the unsigned bound wraps, `withinreg` holds for no address |
| Region.Mrtab | include/nanvix/region.h:135 | MRTAB of a 32-bit address is below 64, and the address lies in that index's 2^26-byte mini region |
| Sem.ModeMasksAreDisjoint | include/sys/sem.h:8-9 | UNLINKED (0100000) and PERMISSIONS (0777) share no bit |
| Sem.SemValidValueHasNoLowerBound | include/sys/sem.h:17-18 | SEM_VALID_VALUE checks only the upper bound: it accepts every value up to SEM_VALUE_MAX, however negative, and rejects every larger one |
| Sem.ValidIndexAddressesTable | include/sys/sem.h:11-12 | SEM_IS_VALID holds exactly for the indices of the SEM_OPEN_MAX table slots |
| Sem.SemTable.IsFree | include/sys/sem.h:14-15 | SEM_IS_FREE always answers false and sets the slot's inode number to 0, changing nothing else |
| KernelState.IpiTagsAreDistinctBits | src/kernel/arch/or1k/ompic.c:100-103 | the four relay message tags are distinct single bits |
| KernelState.Kernel.constructor | src/kernel/arch/or1k/smp.c:30-68 | the kernel starts with curr_core 0 (CORE_MASTER), smp_enabled 0, serving_ipis 0, release_cpu 2^32-1 (`-1` as unsigned) and no events |
| Ompic.FirstPending | src/kernel/arch/or1k/ompic.c:112-122 | the position found is the first in list order whose thread is waiting and RUNNING, or the end of the list when there is none |
| Ompic.ScanPending | src/kernel/arch/or1k/ompic.c:112-122 | the master's walk of the thread list stops at the first waiting, RUNNING thread, and at the end of the list only when no thread qualifies |
| Ompic.NoPendingRequestChangesNothing | src/kernel/arch/or1k/ompic.c:124-133 | the handler stops at the duplicate test exactly when no listed thread is pending; it then changes no thread and not `curr_core`, and does not call `sched_blocking_thread` |
| Ompic.SyscallRelay | src/kernel/arch/or1k/ompic.c:143-166 | a relayed system call runs with `curr_core` equal to the requester and serves the first pending thread; `curr_core` ends at CORE_MASTER; only the next thread of the core current after the call changes, and only its waiting and release flags: it is no longer waiting and is released; the table keeps its length; `sched_blocking_thread` follows |
| Ompic.ExceptionRelay | src/kernel/arch/or1k/ompic.c:169-190 | a relayed exception runs the handler taken from the requester's next thread with `curr_core` equal to the requester; the released thread has its handler cleared to 0, waiting 0 and release 1, and nothing else of it or of any other thread changes; the table keeps its length; `curr_core` ends at CORE_MASTER; `sched_blocking_thread` follows |
| Ompic.ServedRequestIsNotSelectedAgain | src/kernel/arch/or1k/ompic.c:112-122 | after the master releases the thread it served, a later scan of the list selects neither it nor any earlier thread |
| Ompic.SecondInterruptForServedRequest | src/kernel/arch/or1k/ompic.c:124-133 | a second interrupt for an already-served request, with nothing else pending, re-runs nothing and releases nothing |
| Ompic.DecodeSlaveMessage | src/kernel/arch/or1k/ompic.c:96-104 | a slave acts on SCHEDULE exactly when its bit is set (so SCHEDULE beats IDLE); on IDLE exactly when only IDLE is set; on nothing when neither bit is set |
| Ompic.SlaveStepEffect | src/kernel/arch/or1k/ompic.c:197-210 | SCHEDULE makes the core RUNNING and switches to its next thread; IDLE makes it READY and idles it; each clears only its own bit and keeps the core's thread and process fields |
| Ompic.SendIpi | src/kernel/arch/or1k/ompic.c:56-77 | a slave sets its current thread's waiting 1, release 0, coreid and message, and leaves the core records alone; the master stores the message in the destination core's record and changes no thread; the interrupt is raised on the destination |
| Ompic.HandleMasterIpi | src/kernel/arch/or1k/ompic.c:105-191 | the master's handling leaves the thread table, `curr_core` and the calls made as the relay specification of the old state gives them |
| Ompic.RelaySyscall | src/kernel/arch/or1k/ompic.c:143-166 | the SYSCALL branch ends in the state its specification gives, including the NULL `next_thread` fault at line 164 |
| Ompic.RelayException | src/kernel/arch/or1k/ompic.c:169-190 | the EXCEPTION branch ends in the state its specification gives, including the NULL faults at lines 176 and 179 |
| Ompic.HandleSlaveIpi | src/kernel/arch/or1k/ompic.c:194-224 | the slave's handling changes only its own core record, as its message decodes |
| Ompic.HandleIpi | src/kernel/arch/or1k/ompic.c:82-225 | the interrupt is acknowledged first; a slave's core record and the calls it makes are those of the slave specification, and it never touches the thread table or `curr_core`; the master's outcome, thread table, `curr_core` and calls are those of the relay specification, it never touches the core records, and it leaves `curr_core` at CORE_MASTER after every relay |
| PthreadJoin.Decide | src/kernel/sys/pthread_join.c:46-77 | for a matching thread: a NULL owner panics; a foreign owner gives ESRCH before the detach check; detached gives EINVAL; TERMINATED is reaped; DEAD or STOPPED succeed at once |
| PthreadJoin.JoinScan | src/kernel/sys/pthread_join.c:43-86 | the walk stops at the first thread that settles the call; otherwise it ends "not found" exactly when no thread has the ID |
| PthreadJoin.JoinResultMeaning | src/kernel/sys/pthread_join.c:43-93 | ESRCH exactly when no thread has the ID or the deciding match is foreign; EINVAL exactly when it is detached; wait exactly when a thread has the ID and every match is a live, joinable thread of the caller's process |
| PthreadJoin.UniqueThreadDecides | src/kernel/sys/pthread_join.c:43-79 | with a unique thread ID, that thread alone decides the call |
| PthreadJoin.SysPthreadJoin | src/kernel/sys/pthread_join.c:34-95 | the return value follows the walk; a reap calls `clear_thread`, then stores the return value the slot holds afterwards only if it is non-NULL, and faults when that store goes through a NULL `retval` argument; a wait marks the caller WAITING and yields; every other outcome changes nothing and stores nothing |
| SemPost.FindOwner | src/kernel/sys/sempost.c:23-32 | the search ends at the first entry equal to the caller's pid, and at PROC_MAX exactly when the pid is absent |
| SemPost.PostEffect | src/kernel/sys/sempost.c:39-42 | a post adds exactly one below SEM_VALUE_MAX and wraps at it; it wakes the waiters exactly when the value was 0; it changes no other field |
| SemPost.SysSemPost | src/kernel/sys/sempost.c:15-48 | a bad index gives -EINVAL and a non-owner gives -1, each changing nothing; a missing inode gives -EINVAL after the lookup; success updates only slot `idx`, wakes iff the new value is 1, and puts and unlocks the inode |
| SemClose.CloseEffect | src/kernel/sys/semclose.c:25-41 | a close takes exactly one off `nbproc` and frees exactly when the count was 1 and `unlinked` is 0; an unlinked semaphore is never freed; a close at 0 leaves -1 and frees nothing |
| SemClose.ClosesFreeOnce | src/kernel/sys/semclose.c:25-41 | over n successive closes, exactly one frees the semaphore when `unlinked` is 0 and 1 <= nbproc <= n; none frees otherwise |
| SemClose.SysSemClose | src/kernel/sys/semclose.c:14-46 | a bad index gives SEM_FAILED and changes nothing; otherwise only slot `idx` changes, and `freesem` is called iff the close frees |
| Clock.DoClock | src/kernel/arch/i386/clock.c:39-54 | every tick adds one to `ticks`; a kernel-mode tick adds one to `ktime` only; a user-mode tick adds one to `utime`, takes one off the thread's counter and yields iff the counter reaches 0 |
| Clock.QuantumYieldsOnce | src/kernel/arch/i386/clock.c:49-53 | over n user-mode ticks a thread yields exactly once if its counter starts between 1 and n, and never if it starts at 0 or below |
| Clock.FreqDivisor | src/kernel/arch/i386/clock.c:67 | the divisor stored in 16 bits is below 2^16 |
| Clock.DivisorBytes | src/kernel/arch/i386/clock.c:73-74 | the high byte times 256 plus the low byte is the divisor |
| Clock.DivisorIsExactFrom19Hz | src/kernel/arch/i386/clock.c:67 | the 16-bit divisor equals PIT_FREQUENCY/freq exactly when freq >= 19 Hz |
| Clock.ControlWordProgramsChannel0SquareWave | src/kernel/arch/i386/clock.c:70 | control word 0x36 selects counter 0, low-then-high byte access, mode 3 and binary counting |
| Clock.ClockInit | src/kernel/arch/i386/clock.c:59-75 | the handler is installed, then the control word, the low byte and the high byte are written, in that order |
| Clock.ProgrammedDivisor | src/kernel/arch/i386/clock.c:67-74 | from 19 Hz up, the two bytes written recombine to PIT_FREQUENCY/freq |
| SmpOr1k.ReleaseSequence | src/kernel/arch/or1k/smp.c:131-138 | the release loop makes two calls per secondary core, so n-1 cores give 2(n-1) calls |
| SmpOr1k.ReleaseSequenceShape | src/kernel/arch/or1k/smp.c:131-138 | each round takes the boot lock and then assigns `release_cpu` the next core, 1, 2, ..., n-1 in that order |
| SmpOr1k.ReleasesEachSecondaryOnce | src/kernel/arch/or1k/smp.c:131-138 | each secondary core is released exactly once and the master never, in increasing order, and each release comes right after the boot lock is taken |
| SmpOr1k.SmpInit | src/kernel/arch/or1k/smp.c:109-159 | with one core, only `yield` changes (to `yield_up`); without shadow registers it panics and changes nothing; otherwise the boot lock is initialised, the interrupt controller is initialised, the cores are released in order, the boot lock is taken and given back, core 0 becomes RUNNING, cores 1..n-1 become READY with no thread or process, the other cores are unchanged, `yield` is `yield_smp` and `smp_enabled` is 1 |
| SmpI386.GetCoreId | src/kernel/arch/i386/smp.c:72-75 | the running core is CORE_MASTER, which is where `curr_core` starts |
| SmpI386.GetNumCores | src/kernel/arch/i386/smp.c:81-84 | there is one core |
| SmpI386.OnlyCoreIsMaster | src/kernel/arch/i386/smp.c:60-84 | a core number is valid exactly when it is the running core's, and `curr_core` starts out naming it |
| SmpI386.SmpInit | src/kernel/arch/i386/smp.c:89-93 | start-up sets `yield` to `yield_up` and changes nothing else, so `smp_enabled` stays 0 |

## Left out

- Register and port I/O:
  - The OMPIC control writes are recorded as events; the bit layout of the register word is not modelled.
  - So are the 8254 port writes.
  - The or1k special-purpose register reads (`smp_get_coreid`, `smp_get_numcores`, the shadow-register test) are parameters.
- The boot lock calls, the release of `ipi_lock`, interrupt unmasking and enabling, `slave_idle` and `switch_to` are recorded as events. Their concurrency and context switching are not modelled. In particular, the secondary cores unlock the boot lock on their own cores, and those unlocks are not in the trace.
- The relayed system call and exception handler are opaque. The model records that they ran and the `curr_core` they ran with. The value of `curr_core` they leave is the parameter `coreAfterCall`. The `KBASE_VIRT` address arithmetic is not modelled.
- Ompic.SyscallRelay: the relayed call is assumed to leave the thread table and every core's `next_thread` unchanged. The source re-reads `cpus[curr_core].next_thread` after the call (`ompic.c:163`) because the call may reschedule; the model reads it from the core records as they were before the call. The frame "nothing else changes" therefore covers only the handler's own writes.
- Ompic.ExceptionRelay: the same assumption holds for the exception handler, whose `next_thread` is re-read at `ompic.c:178`.
- Ompic.HandleIpi: the master path rests on the same assumption. The relayed call's own changes to the thread table and the core records are not modelled.
- PthreadJoin.SysPthreadJoin: a current thread is required only when the walk ends in a wait, because `pthread_join.c:89` dereferences it only there. A NULL current thread on that path is excluded by the precondition rather than modelled as a fault.
- `clear_thread`, `wakeup`, `yield`, `freesem`, `sched_blocking_thread` and the inode calls are recorded as events. Their own effects are not modelled. For that reason, a second join of a reaped thread is not shown to fail.
- PthreadJoin.SysPthreadJoin: models one walk of the table. When the caller must wait, it returns `JoinRepeat`. The `goto repeat` after `yield` is that call made again, because the retry depends on other threads running in between. FIRST_THRD..LAST_THRD is taken to be the whole thread table. The `*retval` store is the out-parameter `written`. `clear_thread` is opaque, so the return value the reaped slot holds after it (line 71 reads it after the call) is the parameter `retvalAfterClear`. Whether the caller's `retval` pointer is NULL is the parameter `retvalArgIsNull`; the store through it at line 72 is then the fault `JoinNullRetval`.
- Ompic.HandleMasterIpi: `ipi_sender` is a 16-bit variable in the source. The model keeps the core number unreduced, which is the same for every core number below 2^16.
- Clock.DoClock: the thread's `counter` is an unbounded integer. An `int` decrement past its minimum (undefined in C) is not modelled. `startup_time` is not modelled.
- SemClose.SysSemClose: `nbproc` is an unbounded integer. A decrement past the `int` minimum is not modelled.
- Region.Mrtab: states the right shift by MREGION_SHIFT as the division by 2^26 that it performs on an unsigned value, not as a bit-vector shift.
- `kprintf` diagnostics and `kpanic` messages are not modelled. A panic is a distinct outcome (`JoinPanic`, `NoShadowRegisters`).
- Process fields the modelled code does not read are left out: signals, open files, register offsets and the name.
- `struct ksem`'s name is a sequence, with no MAX_SEM_NAME bound.
- The region functions declared in `region.h` have no visible body and are not modelled.
- The user-space library shims are not part of this model.
