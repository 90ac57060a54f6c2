/**
 * The thread control block, restricted to the fields the modelled kernel
 * code reads or writes: identity, owner, state, join attributes, the
 * scheduling counters and the inter-core relay sub-record.
 */
module Threads {
  import opened Base

  /** Thread states (`THRD_*`). */
  datatype ThreadState =
    | ThrdDead
    | ThrdReady
    | ThrdRunning
    | ThrdWaiting
    | ThrdTerminated
    | ThrdStopped

  /**
   * The relay sub-record `ipi` a thread carries while it runs on a slave
   * core: requesting core, pending flag (`waiting_ipi`), release flag
   * (`release_ipi`), message payload and pending exception handler address.
   */
  datatype IpiRecord = IpiRecord(
    coreid: nat,
    waiting: bool,
    release: bool,
    message: bv16,
    exceptionHandler: nat)

  datatype Thread = Thread(
    tid: int,
    father: Option<nat>,      // owning process slot; None is a NULL owner
    state: ThreadState,
    detached: bool,           // detachstate == PTHREAD_CREATE_DETACHED
    retval: int,              // 0 stands for a NULL return value
    intlvl: int,              // interrupt nesting level
    counter: int,             // remaining quantum
    ipi: IpiRecord)

  /** A relay request is outstanding: the thread waits for the master and still runs. */
  predicate RelayPending(t: Thread)
  {
    t.ipi.waiting && t.state == ThrdRunning
  }

  /** The record the master leaves on a thread it has served. */
  function Released(t: Thread): (r: Thread)
    ensures !r.ipi.waiting && r.ipi.release && !RelayPending(r)
    ensures r.(ipi := t.ipi) == t
    ensures r.ipi.(waiting := t.ipi.waiting, release := t.ipi.release) == t.ipi
  {
    t.(ipi := t.ipi.(waiting := false, release := true))
  }
}
