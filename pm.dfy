/**
 * Process management definitions: the process record, the process state
 * codes, the reserved process-table slots, the memory-region slots of a
 * process and the predicates the kernel asks of processes and threads.
 */
module Pm {
  import opened Base
  import opened Threads

  /** Number of process-table slots (from the kernel configuration). */
  const PROC_MAX: nat := 64

  /** Number of thread-table slots (from the kernel configuration). */
  const THRD_MAX: nat := 64

  /** Superuser credentials. */
  const SUPERUSER: int := 0
  const SUPERGROUP: int := 0

  /** Reserved slots of the process table. */
  const IDLE: nat := 0
  const INIT: nat := 1
  const FIRST_PROC: nat := 1
  const LAST_PROC: nat := PROC_MAX - 1

  /** Bit number of the "new process" flag. */
  const PROC_NEW: bv32 := 0

  const PROC_QUANTUM: int := 50
  const NR_PREGIONS: nat := 3

  /** Process states. */
  const PROC_DEAD: nat := 0
  const PROC_ZOMBIE: nat := 1
  const PROC_RUNNING: nat := 2
  const PROC_READY: nat := 3
  const PROC_WAITING: nat := 4
  const PROC_SLEEPING: nat := 5
  const PROC_STOPPED: nat := 6

  /** The seven state codes, in declaration order. */
  function ProcStates(): seq<nat>
  {
    [PROC_DEAD, PROC_ZOMBIE, PROC_RUNNING, PROC_READY, PROC_WAITING, PROC_SLEEPING, PROC_STOPPED]
  }

  /** The state codes are 0..6, each used once, and DEAD is 0. */
  lemma ProcStatesAreDistinctCodes()
    ensures forall i :: 0 <= i < |ProcStates()| ==> ProcStates()[i] == i
    ensures |ProcStates()| == 7 && PROC_DEAD == 0
    ensures forall i, j :: 0 <= i < j < |ProcStates()| ==> ProcStates()[i] != ProcStates()[j]
  {
  }

  /**
   * The process fields the modelled code uses. `pgrp` is the slot of the
   * group leader; `threads` lists the slots of the process's threads in
   * the order of its intrusive thread list.
   */
  datatype Process = Process(
    flags: bv32,
    state: nat,
    uid: int,
    euid: int,
    suid: int,
    gid: int,
    egid: int,
    sgid: int,
    pid: int,
    pgrp: nat,
    utime: u32,
    ktime: u32,
    threads: seq<nat>)

  /** `IS_VALID`: the slot is in use, or it was just allocated and not yet scheduled. */
  predicate IsValid(p: Process)
  {
    p.state != PROC_DEAD || p.flags & (1 << PROC_NEW) != 0
  }

  /** `IS_SUPERUSER`: the real or the effective user is the superuser. */
  predicate IsSuperuser(p: Process)
  {
    p.uid == SUPERUSER || p.euid == SUPERUSER
  }

  /** `IS_LEADER`: the group leader's pid is the process's own pid. */
  predicate IsLeader(proctab: seq<Process>, p: nat)
    requires p < |proctab| && proctab[p].pgrp < |proctab|
  {
    proctab[proctab[p].pgrp].pid == proctab[p].pid
  }

  /** `KERNEL_WAS_RUNNING`: the thread was interrupted while in kernel mode. */
  predicate KernelWasRunning(t: Thread)
  {
    t.intlvl > 1
  }

  /**
   * The test looks at the interrupt nesting level alone: a thread at the
   * first level (user code interrupted once) or below was not in kernel
   * mode, a deeper level always means kernel mode, and two threads at the
   * same level get the same answer whatever else differs.
   */
  lemma KernelModeIsNestedInterrupt(t: Thread, u: Thread)
    ensures t.intlvl <= 1 ==> !KernelWasRunning(t)
    ensures KernelWasRunning(t) && t.intlvl <= u.intlvl ==> KernelWasRunning(u)
    ensures t.intlvl == u.intlvl ==> (KernelWasRunning(t) <==> KernelWasRunning(u))
  {
  }

  /** Every non-DEAD slot is valid; a DEAD slot is valid exactly when flagged new. */
  lemma ValidityByState(p: Process)
    ensures p.state != PROC_DEAD ==> IsValid(p)
    ensures p.state == PROC_DEAD ==> (IsValid(p) <==> p.flags & 1 == 1)
  {
  }

  /** Only the real and the effective user ID decide superuser rights. */
  lemma SuperuserIgnoresOtherCredentials(p: Process, suid: int, gid: int, egid: int, sgid: int)
    ensures IsSuperuser(p) == IsSuperuser(p.(suid := suid, gid := gid, egid := egid, sgid := sgid))
    ensures IsSuperuser(p) <==> SUPERUSER in {p.uid, p.euid}
  {
  }

  /** Process IDs are unique among valid slots. */
  ghost predicate PidsUnique(proctab: seq<Process>)
  {
    forall i, j ::
      0 <= i < |proctab| && 0 <= j < |proctab| && i != j && IsValid(proctab[i]) && IsValid(proctab[j])
      ==> proctab[i].pid != proctab[j].pid
  }

  /**
   * With unique process IDs, a valid process whose group leader is valid
   * leads its group exactly when its group reference is its own slot.
   */
  lemma LeaderIsOwnGroup(proctab: seq<Process>, p: nat)
    requires PidsUnique(proctab)
    requires p < |proctab| && proctab[p].pgrp < |proctab|
    requires IsValid(proctab[p]) && IsValid(proctab[proctab[p].pgrp])
    ensures IsLeader(proctab, p) <==> proctab[p].pgrp == p
  {
  }

  /** The user process slots FIRST_PROC..LAST_PROC. */
  predicate IsUserSlot(i: nat)
  {
    FIRST_PROC <= i <= LAST_PROC
  }

  /** IDLE is the one slot below FIRST_PROC; INIT is the first user slot; LAST_PROC closes the table. */
  lemma SlotLayout()
    ensures !IsUserSlot(IDLE) && IsUserSlot(INIT) && INIT == FIRST_PROC
    ensures LAST_PROC + 1 == PROC_MAX
    ensures forall i: nat :: i < PROC_MAX ==> (IsUserSlot(i) <==> i != IDLE)
  {
  }

  /** The three memory regions of a process. */
  datatype RegionKind = Text | Data | Heap

  /** `TEXT(p)`, `DATA(p)`, `HEAP(p)`: the index of the region in `pregs`. */
  function PregIndex(r: RegionKind): (i: nat)
    ensures i < NR_PREGIONS
  {
    match r
    case Text => 0
    case Data => 1
    case Heap => 2
  }

  /** Distinct regions occupy distinct `pregs` entries, and together all of them. */
  lemma PregIndexIsBijective()
    ensures forall a, b :: PregIndex(a) == PregIndex(b) ==> a == b
    ensures {PregIndex(Text), PregIndex(Data), PregIndex(Heap)} == {0, 1, 2}
  {
  }
}
