/**
 * The kernel's process-wide state: the process, thread and semaphore
 * tables, the per-core records, the scalar globals the modelled code
 * reads and writes, and a trace of the calls the kernel makes into
 * collaborators whose bodies are outside the model (scheduler, sleep and
 * wakeup, inode layer, interrupt controller, I/O ports).
 */
module KernelState {
  import opened Base
  import opened Threads
  import opened Pm
  import opened Sem

  /** The master core. */
  const CORE_MASTER: nat := 0

  /** Relay message tags (single bits of the 16-bit message). */
  const IPI_SYSCALL: bv16 := 0x1
  const IPI_EXCEPTION: bv16 := 0x2
  const IPI_SCHEDULE: bv16 := 0x4
  const IPI_IDLE: bv16 := 0x8

  /** The four tags are distinct single bits. */
  lemma IpiTagsAreDistinctBits()
    ensures IPI_SYSCALL & IPI_EXCEPTION == 0 && IPI_SYSCALL & IPI_SCHEDULE == 0 && IPI_SYSCALL & IPI_IDLE == 0
    ensures IPI_EXCEPTION & IPI_SCHEDULE == 0 && IPI_EXCEPTION & IPI_IDLE == 0 && IPI_SCHEDULE & IPI_IDLE == 0
    ensures IPI_SYSCALL & (IPI_SYSCALL - 1) == 0 && IPI_EXCEPTION & (IPI_EXCEPTION - 1) == 0
    ensures IPI_SCHEDULE & (IPI_SCHEDULE - 1) == 0 && IPI_IDLE & (IPI_IDLE - 1) == 0
  {
  }

  /** Execution state of a core. */
  datatype CoreState = CoreReady | CoreRunning

  /** The per-core record `struct per_core`. */
  datatype PerCore = PerCore(
    state: CoreState,
    ipiMessage: bv16,
    currThread: Option<nat>,
    currProc: Option<nat>,
    nextThread: Option<nat>)

  /** The implementation the `yield` function pointer designates. */
  datatype YieldStrategy = YieldUnset | YieldUp | YieldSmp

  /** Interrupt lines the modelled code registers handlers for. */
  datatype Irq = IntClock

  /** A byte written to an I/O port. */
  type byte = x: int | 0 <= x < 0x100

  /** I/O ports of the Intel 8254 programmable interval timer. */
  const PIT_CTRL: nat := 0x43
  const PIT_DATA: nat := 0x40

  /** Calls into collaborators and writes to devices, in the order the kernel makes them. */
  datatype Event =
    | IpiRaised(fromCore: nat, toCore: nat, data: bv16)       // OMPIC control write that raises the interrupt
    | IpiAcked(core: nat)                                     // OMPIC control write that acknowledges it
    | RelayedSyscall(currCore: nat)                           // syscall() run with curr_core == currCore
    | RelayedException(handler: nat, currCore: nat)           // exception handler run with curr_core == currCore
    | SchedBlockingThread(proc: nat)
    | SwitchTo(toProc: Option<nat>, toThread: Option<nat>)
    | IpiLockReleased
    | OmpicUnmasked
    | InterruptsEnabled
    | SlaveIdle
    | Yield
    | ClearThread(slot: nat)
    | InodeGet(dev: int, num: int)
    | InodePut
    | InodeUnlock
    | Wakeup(sem: nat)
    | FreeSem(sem: nat)
    | HandlerSet(line: Irq)
    | OmpicInit                                               // interrupt controller initialised
    | CpuReleased(core: nat)                                  // release_cpu := core during boot
    | BootLockInit                                            // spin_init(&boot_lock)
    | BootLockTaken                                           // spin_lock(&boot_lock)
    | BootLockReleased                                        // spin_unlock(&boot_lock)
    | PortOut(port: nat, value: byte)

  /** Initial values of the globals defined with initialisers. */
  const INITIAL_CURR_CORE: nat := 0
  const INITIAL_RELEASE_CPU: u32 := U32_LIMIT - 1   // `unsigned release_cpu = -1`

  /** Every slot of a thread list is a thread-table slot. */
  predicate ThreadListInRange(list: seq<nat>)
  {
    forall j :: 0 <= j < |list| ==> list[j] < THRD_MAX
  }

  /** A thread's requesting core and owner are slots of their tables. */
  predicate ThreadRefsInRange(t: Thread, numCores: nat)
  {
    && t.ipi.coreid < numCores
    && (t.father.Some? ==> t.father.value < PROC_MAX)
  }

  /** A core's thread and process references are slots of their tables. */
  predicate CoreRefsInRange(c: PerCore)
  {
    && (c.currThread.Some? ==> c.currThread.value < THRD_MAX)
    && (c.nextThread.Some? ==> c.nextThread.value < THRD_MAX)
    && (c.currProc.Some? ==> c.currProc.value < PROC_MAX)
  }

  class Kernel {
    const proctab: array<Process>
    const threadtab: array<Thread>
    const cpus: array<PerCore>
    const semtable: SemTable

    var currProc: nat          // curr_proc, as a process-table slot
    var currCore: nat          // curr_core
    var smpEnabled: u32
    var releaseCpu: u32
    var servingIpis: u32
    var yieldFn: YieldStrategy // the `yield` function pointer
    var ticks: u32
    var events: seq<Event>

    /** Every reference stored in a table designates a slot of the table it refers to. */
    ghost predicate Valid()
      reads this, proctab, threadtab, cpus, semtable, semtable.slots
    {
      && proctab.Length == PROC_MAX
      && threadtab.Length == THRD_MAX
      && 0 < cpus.Length
      && semtable.Valid()
      && currProc < proctab.Length
      && currCore < cpus.Length
      && (forall i :: 0 <= i < proctab.Length ==> ThreadListInRange(proctab[i].threads))
      && (forall i :: 0 <= i < threadtab.Length ==> ThreadRefsInRange(threadtab[i], cpus.Length))
      && (forall i :: 0 <= i < cpus.Length ==> CoreRefsInRange(cpus[i]))
    }

    /**
     * The kernel as the static initialisers leave it, over the tables the
     * boot sequence has filled.
     */
    constructor (procs: seq<Process>, threads: seq<Thread>, cores: seq<PerCore>, sems: SemTable)
      requires |procs| == PROC_MAX && |threads| == THRD_MAX && 0 < |cores|
      requires sems.Valid()
      requires forall i :: 0 <= i < |procs| ==> ThreadListInRange(procs[i].threads)
      requires forall i :: 0 <= i < |threads| ==> ThreadRefsInRange(threads[i], |cores|)
      requires forall i :: 0 <= i < |cores| ==> CoreRefsInRange(cores[i])
      ensures Valid()
      ensures proctab[..] == procs && threadtab[..] == threads && cpus[..] == cores && semtable == sems
      ensures currCore == INITIAL_CURR_CORE
      ensures smpEnabled == 0 && servingIpis == 0 && releaseCpu == INITIAL_RELEASE_CPU
      ensures yieldFn == YieldUnset && ticks == 0 && events == []
    {
      proctab := new Process[|procs|](i requires 0 <= i < |procs| => procs[i]);
      threadtab := new Thread[|threads|](i requires 0 <= i < |threads| => threads[i]);
      cpus := new PerCore[|cores|](i requires 0 <= i < |cores| => cores[i]);
      semtable := sems;
      currProc := IDLE;   // `curr_proc` is set by the boot sequence, which is not modelled
      currCore := INITIAL_CURR_CORE;
      smpEnabled := 0;
      servingIpis := 0;
      releaseCpu := INITIAL_RELEASE_CPU;
      yieldFn := YieldUnset;
      ticks := 0;
      events := [];
    }
  }
}
