/**
 * The inter-core relay on the or1k multi-processor interrupt controller
 * (OMPIC). A slave core that needs a system call or an exception handled
 * marks its current thread's relay record and interrupts the master; the
 * master finds the pending thread, runs the request with `curr_core` set
 * to the requester, restores `curr_core` and releases the requester. The
 * master in turn tells slaves to run a thread (SCHEDULE) or to idle (IDLE).
 *
 * The relayed system call and exception handler are opaque calls: the
 * model records that they ran and with which `curr_core`, and takes as the
 * parameter `coreAfterCall` the value they leave in `curr_core`.
 */
module Ompic {
  import opened Base
  import opened Threads
  import opened Pm
  import opened KernelState

  /*
   * Master side: finding the request to serve.
   */

  /** Position in `list` of the first thread with a relay request pending, or |list| when there is none. */
  function FirstPending(tab: seq<Thread>, list: seq<nat>): (p: nat)
    requires forall j :: 0 <= j < |list| ==> list[j] < |tab|
    ensures p <= |list|
    ensures p < |list| ==> RelayPending(tab[list[p]])
    ensures forall j :: 0 <= j < p ==> !RelayPending(tab[list[j]])
    decreases |list|
  {
    if |list| == 0 then 0
    else if RelayPending(tab[list[0]]) then 0
    else 1 + FirstPending(tab, list[1..])
  }

  /** The walk along the current process's thread list (the `while` loop of the master). */
  method ScanPending(tab: array<Thread>, list: seq<nat>) returns (p: nat)
    requires forall j :: 0 <= j < |list| ==> list[j] < tab.Length
    ensures p <= |list|
    ensures p < |list| ==> RelayPending(tab[list[p]])
    ensures forall j :: 0 <= j < p ==> !RelayPending(tab[list[j]])
    ensures p == FirstPending(tab[..], list)
  {
    p := 0;
    while p < |list| && !RelayPending(tab[list[p]])
      invariant p <= |list|
      invariant forall j :: 0 <= j < p ==> !RelayPending(tab[list[j]])
    {
      p := p + 1;
    }
  }

  /** What a call of the handler on the master returns, and what it does on a slave. */
  datatype IpiOutcome =
    | Scheduled                             // slave: SCHEDULE served
    | Idled                                 // slave: IDLE served
    | NotForSlave                           // slave: neither tag set
    | Relayed(found: nat, released: nat)    // master: request of thread `found` run, thread `released` released
    | NotRelayed(found: nat)                // master: pending message is neither SYSCALL nor EXCEPTION
    | NullDereference(line: nat)            // a NULL thread pointer read at this line of the handler

  /** The master's effect: outcome, thread table, `curr_core` and the events appended. */
  datatype MasterResult = MasterResult(outcome: IpiOutcome, threads: seq<Thread>, currCore: nat, events: seq<Event>)

  /** The core and thread references the master follows lead to slots of their tables. */
  predicate RefsInRange(tab: seq<Thread>, cpus: seq<PerCore>, coreAfterCall: nat)
  {
    && (forall i :: 0 <= i < |tab| ==> tab[i].ipi.coreid < |cpus|)
    && (forall c :: 0 <= c < |cpus| ==> (cpus[c].nextThread.Some? ==> cpus[c].nextThread.value < |tab|))
    && coreAfterCall < |cpus|
  }

  /** ... and so do the entries of the thread list the master walks. */
  predicate RelayInputs(tab: seq<Thread>, cpus: seq<PerCore>, list: seq<nat>, coreAfterCall: nat)
  {
    && (forall j :: 0 <= j < |list| ==> list[j] < |tab|)
    && RefsInRange(tab, cpus, coreAfterCall)
  }

  /**
   * The master's handling of a relay interrupt over the thread table
   * `tab`, the core records `cpus` and the current process's thread list.
   * When the scan finds no pending thread, the duplicate test reads the
   * fields of the NULL pointer the scan ended on.
   */
  function MasterStep(tab: seq<Thread>, cpus: seq<PerCore>, list: seq<nat>, currCore: nat, currProc: nat,
                      coreAfterCall: nat): MasterResult
    requires RelayInputs(tab, cpus, list, coreAfterCall)
  {
    var p := FirstPending(tab, list);
    if p == |list| then MasterResult(NullDereference(129), tab, currCore, [])
    else RelayStep(tab, cpus, list[p], currCore, currProc, coreAfterCall)
  }

  /** Serving the request of thread `found`, by its message tag. */
  function RelayStep(tab: seq<Thread>, cpus: seq<PerCore>, found: nat, currCore: nat, currProc: nat,
                     coreAfterCall: nat): MasterResult
    requires found < |tab| && RefsInRange(tab, cpus, coreAfterCall)
  {
    var ipiType := tab[found].ipi.message;
    var sender := tab[found].ipi.coreid;
    if ipiType == IPI_SYSCALL then SyscallStep(tab, cpus, found, sender, currProc, coreAfterCall)
    else if ipiType == IPI_EXCEPTION then ExceptionStep(tab, cpus, found, sender, currProc, coreAfterCall)
    else MasterResult(NotRelayed(found), tab, currCore, [SchedBlockingThread(currProc)])
  }

  /**
   * A relayed system call: run with `curr_core` equal to the sender, then
   * release the next thread of the core `curr_core` names after the call.
   */
  function SyscallStep(tab: seq<Thread>, cpus: seq<PerCore>, found: nat, sender: nat, currProc: nat,
                       coreAfterCall: nat): MasterResult
    requires RefsInRange(tab, cpus, coreAfterCall)
  {
    var ev := [RelayedSyscall(sender)];
    match cpus[coreAfterCall].nextThread
    case None => MasterResult(NullDereference(164), tab, CORE_MASTER, ev)
    case Some(r) =>
      MasterResult(Relayed(found, r), tab[r := Released(tab[r])], CORE_MASTER, ev + [SchedBlockingThread(currProc)])
  }

  /**
   * A relayed exception: run the handler of the sender's next thread with
   * `curr_core` equal to the sender, then clear the handler of the next
   * thread of the core `curr_core` names after the call and release it.
   */
  function ExceptionStep(tab: seq<Thread>, cpus: seq<PerCore>, found: nat, sender: nat, currProc: nat,
                         coreAfterCall: nat): MasterResult
    requires sender < |cpus| && RefsInRange(tab, cpus, coreAfterCall)
  {
    match cpus[sender].nextThread
    case None => MasterResult(NullDereference(176), tab, sender, [])
    case Some(n) =>
      var ev := [RelayedException(tab[n].ipi.exceptionHandler, sender)];
      match cpus[coreAfterCall].nextThread
      case None => MasterResult(NullDereference(179), tab, coreAfterCall, ev)
      case Some(r) =>
        var cleared := tab[r].(ipi := tab[r].ipi.(exceptionHandler := 0));
        MasterResult(Relayed(found, r), tab[r := Released(cleared)], CORE_MASTER, ev + [SchedBlockingThread(currProc)])
  }

  /**
   * With no pending thread the handler stops at the duplicate test: it
   * changes neither `curr_core` nor any thread, and calls neither the
   * relayed code nor `sched_blocking_thread`. This is the only way to reach
   * that test with a false condition, and the pointer it reads is NULL.
   */
  lemma NoPendingRequestChangesNothing(tab: seq<Thread>, cpus: seq<PerCore>, list: seq<nat>, currCore: nat,
                                       currProc: nat, coreAfterCall: nat)
    requires RelayInputs(tab, cpus, list, coreAfterCall)
    ensures var m := MasterStep(tab, cpus, list, currCore, currProc, coreAfterCall);
      (m.outcome == NullDereference(129) <==> forall j :: 0 <= j < |list| ==> !RelayPending(tab[list[j]]))
      && (m.outcome == NullDereference(129) ==> m.threads == tab && m.currCore == currCore && m.events == [])
  {
  }

  /**
   * A relayed system call runs with `curr_core` equal to the requesting
   * core, serves the first pending thread of the list, releases the
   * thread the core current after the call is to run next, and leaves
   * `curr_core` at CORE_MASTER.
   */
  lemma SyscallRelay(tab: seq<Thread>, cpus: seq<PerCore>, list: seq<nat>, currCore: nat, currProc: nat,
                     coreAfterCall: nat)
    requires RelayInputs(tab, cpus, list, coreAfterCall)
    requires FirstPending(tab, list) < |list|
    requires tab[list[FirstPending(tab, list)]].ipi.message == IPI_SYSCALL
    requires cpus[coreAfterCall].nextThread.Some?
    ensures var p := FirstPending(tab, list);
      var sender := tab[list[p]].ipi.coreid;
      var r := cpus[coreAfterCall].nextThread.value;
      var m := MasterStep(tab, cpus, list, currCore, currProc, coreAfterCall);
      && m.outcome == Relayed(list[p], r)
      && m.currCore == CORE_MASTER
      && m.events == [RelayedSyscall(sender), SchedBlockingThread(currProc)]
      && |m.threads| == |tab|
      && !m.threads[r].ipi.waiting && m.threads[r].ipi.release
      && m.threads[r].(ipi := tab[r].ipi) == tab[r]
      && m.threads[r].ipi.(waiting := tab[r].ipi.waiting, release := tab[r].ipi.release) == tab[r].ipi
      && (forall i :: 0 <= i < |tab| && i != r ==> m.threads[i] == tab[i])
  {
  }

  /**
   * A relayed exception runs the handler recorded in the relay record of
   * the requester's next thread, with `curr_core` equal to the requester;
   * the released thread has its handler cleared, is no longer pending and
   * is released; `curr_core` ends at CORE_MASTER and the master then calls
   * `sched_blocking_thread`.
   */
  lemma ExceptionRelay(tab: seq<Thread>, cpus: seq<PerCore>, list: seq<nat>, currCore: nat, currProc: nat,
                       coreAfterCall: nat)
    requires RelayInputs(tab, cpus, list, coreAfterCall)
    requires FirstPending(tab, list) < |list|
    requires tab[list[FirstPending(tab, list)]].ipi.message == IPI_EXCEPTION
    requires cpus[tab[list[FirstPending(tab, list)]].ipi.coreid].nextThread.Some?
    requires cpus[coreAfterCall].nextThread.Some?
    ensures var p := FirstPending(tab, list);
      var sender := tab[list[p]].ipi.coreid;
      var n := cpus[sender].nextThread.value;
      var r := cpus[coreAfterCall].nextThread.value;
      var m := MasterStep(tab, cpus, list, currCore, currProc, coreAfterCall);
      && m.outcome == Relayed(list[p], r)
      && m.currCore == CORE_MASTER
      && m.events == [RelayedException(tab[n].ipi.exceptionHandler, sender), SchedBlockingThread(currProc)]
      && |m.threads| == |tab|
      && m.threads[r].ipi.exceptionHandler == 0 && !m.threads[r].ipi.waiting && m.threads[r].ipi.release
      && m.threads[r].(ipi := tab[r].ipi) == tab[r]
      && m.threads[r].ipi.(waiting := tab[r].ipi.waiting, release := tab[r].ipi.release,
                           exceptionHandler := tab[r].ipi.exceptionHandler) == tab[r].ipi
      && (forall i :: 0 <= i < |tab| && i != r ==> m.threads[i] == tab[i])
  {
  }

  /**
   * Once the master has released the thread whose request it served, a
   * later scan of the same list never selects that thread or any thread
   * before it again.
   */
  lemma {:induction false} ServedRequestIsNotSelectedAgain(tab: seq<Thread>, cpus: seq<PerCore>, list: seq<nat>,
                                                           currCore: nat, currProc: nat, coreAfterCall: nat)
    requires RelayInputs(tab, cpus, list, coreAfterCall)
    requires MasterStep(tab, cpus, list, currCore, currProc, coreAfterCall).outcome.Relayed?
    requires MasterStep(tab, cpus, list, currCore, currProc, coreAfterCall).outcome.found
          == MasterStep(tab, cpus, list, currCore, currProc, coreAfterCall).outcome.released
    ensures var m := MasterStep(tab, cpus, list, currCore, currProc, coreAfterCall);
      RelayInputs(m.threads, cpus, list, coreAfterCall)
      && FirstPending(m.threads, list) > FirstPending(tab, list)
  {
    var m := MasterStep(tab, cpus, list, currCore, currProc, coreAfterCall);
    var p := FirstPending(tab, list);
    var r := m.outcome.released;
    assert r == list[p];
    assert m.threads == tab[r := m.threads[r]] && !RelayPending(m.threads[r]);
  }

  /**
   * A second relay interrupt for a request already served, when no other
   * request is pending, re-runs nothing and releases nothing: as written
   * it reaches the duplicate test with the NULL pointer.
   */
  lemma SecondInterruptForServedRequest(tab: seq<Thread>, cpus: seq<PerCore>, list: seq<nat>, currCore: nat,
                                        currProc: nat, coreAfterCall: nat)
    requires RelayInputs(tab, cpus, list, coreAfterCall)
    requires MasterStep(tab, cpus, list, currCore, currProc, coreAfterCall).outcome.Relayed?
    requires MasterStep(tab, cpus, list, currCore, currProc, coreAfterCall).outcome.found
          == MasterStep(tab, cpus, list, currCore, currProc, coreAfterCall).outcome.released
    requires forall j :: 0 <= j < |list| && list[j] != list[FirstPending(tab, list)] ==> !RelayPending(tab[list[j]])
    ensures var m := MasterStep(tab, cpus, list, currCore, currProc, coreAfterCall);
      RelayInputs(m.threads, cpus, list, coreAfterCall)
      && var again := MasterStep(m.threads, cpus, list, m.currCore, currProc, coreAfterCall);
      again.outcome == NullDereference(129) && again.events == [] && again.threads == m.threads
  {
    var m := MasterStep(tab, cpus, list, currCore, currProc, coreAfterCall);
    var r := m.outcome.released;
    forall j | 0 <= j < |list|
      ensures !RelayPending(m.threads[list[j]])
    {
      if list[j] != r {
        assert m.threads[list[j]] == tab[list[j]];
      }
    }
    NoPendingRequestChangesNothing(m.threads, cpus, list, m.currCore, currProc, coreAfterCall);
  }

  /*
   * Slave side: decoding the message the master left in the core record.
   */

  datatype SlaveAction = Schedule | Idle | NoAction

  /**
   * The message tag a slave acts on. SCHEDULE takes precedence over IDLE;
   * a message with neither tag leads to no action.
   */
  function DecodeSlaveMessage(msg: bv16): (a: SlaveAction)
    ensures a == Schedule <==> msg & IPI_SCHEDULE != 0
    ensures a == Idle <==> msg & IPI_SCHEDULE == 0 && msg & IPI_IDLE != 0
    ensures a == NoAction <==> msg & (IPI_SCHEDULE | IPI_IDLE) == 0
  {
    var ipiType := if msg & IPI_SCHEDULE != 0 then IPI_SCHEDULE
                   else if msg & IPI_IDLE != 0 then IPI_IDLE
                   else msg;
    if ipiType == IPI_SCHEDULE then Schedule
    else if ipiType == IPI_IDLE then Idle
    else NoAction
  }

  /** The slave's new core record and the calls it makes. */
  function SlaveStep(c: PerCore): (r: (PerCore, seq<Event>))
  {
    match DecodeSlaveMessage(c.ipiMessage)
    case Schedule =>
      (c.(state := CoreRunning, ipiMessage := c.ipiMessage & !IPI_SCHEDULE), [SwitchTo(c.currProc, c.nextThread)])
    case Idle =>
      (c.(state := CoreReady, ipiMessage := c.ipiMessage & !IPI_IDLE),
       [IpiLockReleased, OmpicUnmasked, InterruptsEnabled, SlaveIdle])
    case NoAction => (c, [])
  }

  /**
   * SCHEDULE makes the core RUNNING and switches to its next thread; IDLE
   * makes it READY and idles it; each clears its own tag and keeps every
   * other bit of the message and every other field of the record.
   */
  lemma SlaveStepEffect(c: PerCore)
    ensures var (c', ev) := SlaveStep(c);
      && c'.currThread == c.currThread && c'.currProc == c.currProc && c'.nextThread == c.nextThread
      && (c.ipiMessage & IPI_SCHEDULE != 0 ==>
            && c'.state == CoreRunning && ev == [SwitchTo(c.currProc, c.nextThread)]
            && c'.ipiMessage & IPI_SCHEDULE == 0
            && c'.ipiMessage | IPI_SCHEDULE == c.ipiMessage | IPI_SCHEDULE)
      && (c.ipiMessage & IPI_SCHEDULE == 0 && c.ipiMessage & IPI_IDLE != 0 ==>
            && c'.state == CoreReady && ev[|ev| - 1] == SlaveIdle
            && c'.ipiMessage & IPI_IDLE == 0
            && c'.ipiMessage | IPI_IDLE == c.ipiMessage)
      && (c.ipiMessage & (IPI_SCHEDULE | IPI_IDLE) == 0 ==> c' == c && ev == [])
  {
  }

  /*
   * The operations.
   */

  /**
   * `ompic_send_ipi`: a slave marks its current thread as waiting for the
   * master; the master stores the message in the destination core's
   * record. Either way the interrupt is raised on the destination core.
   */
  method SendIpi(k: Kernel, cpu: nat, dstcore: nat, data: bv16)
    requires k.Valid() && cpu < k.cpus.Length
    requires cpu != CORE_MASTER ==> k.cpus[cpu].currThread.Some?
    requires cpu == CORE_MASTER ==> dstcore < k.cpus.Length
    modifies k`events, k.threadtab, k.cpus
    ensures k.Valid()
    ensures cpu != CORE_MASTER ==>
      var t := old(k.cpus[cpu].currThread.value);
      && k.threadtab[..] == old(k.threadtab[..])[t := old(k.threadtab[t]).(ipi :=
           old(k.threadtab[t].ipi).(waiting := true, release := false, coreid := cpu, message := data))]
      && k.cpus[..] == old(k.cpus[..])
    ensures cpu == CORE_MASTER ==>
      && k.threadtab[..] == old(k.threadtab[..])
      && k.cpus[..] == old(k.cpus[..])[dstcore := old(k.cpus[dstcore]).(ipiMessage := data)]
    ensures k.events == old(k.events) + [IpiRaised(cpu, dstcore, data)]
  {
    if cpu != CORE_MASTER {
      var t := k.cpus[cpu].currThread.value;
      k.threadtab[t] := k.threadtab[t].(ipi := k.threadtab[t].ipi.(waiting := true));
      k.threadtab[t] := k.threadtab[t].(ipi := k.threadtab[t].ipi.(release := false));
      k.threadtab[t] := k.threadtab[t].(ipi := k.threadtab[t].ipi.(coreid := cpu));
      k.threadtab[t] := k.threadtab[t].(ipi := k.threadtab[t].ipi.(message := data));
    } else {
      k.cpus[dstcore] := k.cpus[dstcore].(ipiMessage := data);
    }
    k.events := k.events + [IpiRaised(cpu, dstcore, data)];
  }

  /** The master's part of `ompic_handle_ipi`. */
  method HandleMasterIpi(k: Kernel, coreAfterCall: nat) returns (outcome: IpiOutcome)
    requires k.Valid() && coreAfterCall < k.cpus.Length
    modifies k`currCore, k`events, k.threadtab
    ensures k.Valid()
    ensures var m := MasterStep(old(k.threadtab[..]), k.cpus[..], k.proctab[k.currProc].threads, old(k.currCore),
                                k.currProc, coreAfterCall);
      && outcome == m.outcome
      && k.threadtab[..] == m.threads
      && k.currCore == m.currCore
      && k.events == old(k.events) + m.events
  {
    var list := k.proctab[k.currProc].threads;
    var p := ScanPending(k.threadtab, list);
    if p == |list| {
      // the scan ended on NULL, whose fields the duplicate test reads
      outcome := NullDereference(129);
      return;
    }
    var found := list[p];
    var ipiType := k.threadtab[found].ipi.message;
    var sender := k.threadtab[found].ipi.coreid;
    if ipiType == IPI_SYSCALL {
      outcome := RelaySyscall(k, found, sender, coreAfterCall);
    } else if ipiType == IPI_EXCEPTION {
      outcome := RelayException(k, found, sender, coreAfterCall);
    } else {
      outcome := NotRelayed(found);
      k.events := k.events + [SchedBlockingThread(k.currProc)];
    }
  }

  /** The SYSCALL branch of the master, followed by the call to `sched_blocking_thread`. */
  method RelaySyscall(k: Kernel, found: nat, sender: nat, coreAfterCall: nat) returns (outcome: IpiOutcome)
    requires k.Valid() && sender < k.cpus.Length && coreAfterCall < k.cpus.Length
    modifies k`currCore, k`events, k.threadtab
    ensures k.Valid()
    ensures RefsInRange(old(k.threadtab[..]), k.cpus[..], coreAfterCall)
    ensures var m := SyscallStep(old(k.threadtab[..]), k.cpus[..], found, sender, k.currProc, coreAfterCall);
      && outcome == m.outcome
      && k.threadtab[..] == m.threads
      && k.currCore == m.currCore
      && k.events == old(k.events) + m.events
  {
    k.currCore := sender;
    k.events := k.events + [RelayedSyscall(k.currCore)];
    k.currCore := coreAfterCall;
    var core := k.currCore;
    k.currCore := CORE_MASTER;
    var currThread := k.cpus[core].nextThread;
    if currThread.None? {
      outcome := NullDereference(164);
      return;
    }
    var r := currThread.value;
    k.threadtab[r] := k.threadtab[r].(ipi := k.threadtab[r].ipi.(waiting := false, release := true));
    outcome := Relayed(found, r);
    k.events := k.events + [SchedBlockingThread(k.currProc)];
  }

  /** The EXCEPTION branch of the master, followed by the call to `sched_blocking_thread`. */
  method RelayException(k: Kernel, found: nat, sender: nat, coreAfterCall: nat) returns (outcome: IpiOutcome)
    requires k.Valid() && sender < k.cpus.Length && coreAfterCall < k.cpus.Length
    modifies k`currCore, k`events, k.threadtab
    ensures k.Valid()
    ensures RefsInRange(old(k.threadtab[..]), k.cpus[..], coreAfterCall)
    ensures var m := ExceptionStep(old(k.threadtab[..]), k.cpus[..], found, sender, k.currProc, coreAfterCall);
      && outcome == m.outcome
      && k.threadtab[..] == m.threads
      && k.currCore == m.currCore
      && k.events == old(k.events) + m.events
  {
    var currThread := k.cpus[sender].nextThread;
    k.currCore := sender;
    if currThread.None? {
      outcome := NullDereference(176);
      return;
    }
    var handler := k.threadtab[currThread.value].ipi.exceptionHandler;
    k.events := k.events + [RelayedException(handler, k.currCore)];
    k.currCore := coreAfterCall;
    currThread := k.cpus[k.currCore].nextThread;
    if currThread.None? {
      outcome := NullDereference(179);
      return;
    }
    var r := currThread.value;
    k.threadtab[r] := k.threadtab[r].(ipi := k.threadtab[r].ipi.(exceptionHandler := 0));
    k.currCore := CORE_MASTER;
    k.threadtab[r] := k.threadtab[r].(ipi := k.threadtab[r].ipi.(waiting := false, release := true));
    outcome := Relayed(found, r);
    k.events := k.events + [SchedBlockingThread(k.currProc)];
  }

  /** A slave's part of `ompic_handle_ipi`. */
  method HandleSlaveIpi(k: Kernel, cpu: nat) returns (outcome: IpiOutcome)
    requires k.Valid() && cpu < k.cpus.Length && cpu != CORE_MASTER
    modifies k`events, k.cpus
    ensures k.Valid()
    ensures var (c', ev) := SlaveStep(old(k.cpus[cpu]));
      k.cpus[..] == old(k.cpus[..])[cpu := c'] && k.events == old(k.events) + ev
    ensures outcome == match DecodeSlaveMessage(old(k.cpus[cpu].ipiMessage))
                       case Schedule => Scheduled
                       case Idle => Idled
                       case NoAction => NotForSlave
  {
    var ipiType := k.cpus[cpu].ipiMessage;
    if ipiType & IPI_SCHEDULE != 0 {
      ipiType := IPI_SCHEDULE;
    } else if ipiType & IPI_IDLE != 0 {
      ipiType := IPI_IDLE;
    }
    if ipiType == IPI_SCHEDULE {
      k.cpus[cpu] := k.cpus[cpu].(state := CoreRunning);
      k.cpus[cpu] := k.cpus[cpu].(ipiMessage := k.cpus[cpu].ipiMessage & !IPI_SCHEDULE);
      k.events := k.events + [SwitchTo(k.cpus[cpu].currProc, k.cpus[cpu].nextThread)];
      outcome := Scheduled;
    } else if ipiType == IPI_IDLE {
      k.cpus[cpu] := k.cpus[cpu].(state := CoreReady);
      k.cpus[cpu] := k.cpus[cpu].(ipiMessage := k.cpus[cpu].ipiMessage & !IPI_IDLE);
      k.events := k.events + [IpiLockReleased, OmpicUnmasked, InterruptsEnabled, SlaveIdle];
      outcome := Idled;
    } else {
      outcome := NotForSlave;
    }
  }

  /**
   * `ompic_handle_ipi`: acknowledge the interrupt, then serve it as the
   * master or as a slave. A slave's handling never touches the thread
   * table or `curr_core`; the master's never touches the core records, and
   * whenever it relays a request it leaves `curr_core` at CORE_MASTER.
   */
  method HandleIpi(k: Kernel, cpu: nat, coreAfterCall: nat) returns (outcome: IpiOutcome)
    requires k.Valid() && cpu < k.cpus.Length && coreAfterCall < k.cpus.Length
    modifies k`currCore, k`events, k.threadtab, k.cpus
    ensures k.Valid()
    ensures |old(k.events)| < |k.events| && k.events[..|old(k.events)| + 1] == old(k.events) + [IpiAcked(cpu)]
    ensures cpu != CORE_MASTER ==>
      && outcome in {Scheduled, Idled, NotForSlave}
      && k.threadtab[..] == old(k.threadtab[..]) && k.currCore == old(k.currCore)
      && var (c', ev) := SlaveStep(old(k.cpus[cpu]));
         k.cpus[..] == old(k.cpus[..])[cpu := c'] && k.events == old(k.events) + [IpiAcked(cpu)] + ev
    ensures cpu == CORE_MASTER ==>
      var m := MasterStep(old(k.threadtab[..]), k.cpus[..], k.proctab[k.currProc].threads, old(k.currCore),
                          k.currProc, coreAfterCall);
      && outcome == m.outcome
      && k.threadtab[..] == m.threads
      && k.currCore == m.currCore
      && k.events == old(k.events) + [IpiAcked(cpu)] + m.events
    ensures cpu == CORE_MASTER ==>
      && !(outcome in {Scheduled, Idled, NotForSlave})
      && k.cpus[..] == old(k.cpus[..])
      && (outcome.Relayed? ==> k.currCore == CORE_MASTER)
  {
    k.events := k.events + [IpiAcked(cpu)];
    if cpu != CORE_MASTER {
      outcome := HandleSlaveIpi(k, cpu);
    } else {
      outcome := HandleMasterIpi(k, coreAfterCall);
    }
  }
}
