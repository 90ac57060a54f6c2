/**
 * The `pthread_join` system call. The kernel walks the whole thread table
 * for the requested thread ID; the first matching thread that settles the
 * call decides it (a panic, an error, a reap or an immediate success). If
 * some thread matched but none settled the call, the caller waits and the
 * walk is repeated after `yield`; one call of the model is one walk.
 */
module PthreadJoin {
  import opened Base
  import opened Threads
  import opened Sem
  import opened KernelState

  /** What one thread-table slot says about a join of `tid` from process `currProc`. */
  datatype Verdict =
    | Skip        // not the requested thread
    | Panic       // the matching thread has no owning process
    | NotPeer     // owned by another process: ESRCH
    | Detached    // detached: EINVAL
    | Reap        // terminated: clear it, hand over its return value, return 0
    | Gone        // dead or stopped: return 0
    | Live        // matches, but is still alive: keep looking

  /** A verdict that ends the walk. */
  predicate Decisive(v: Verdict)
  {
    v != Skip && v != Live
  }

  /**
   * The checks the kernel makes of a matching thread, in their order:
   * owner present, owner is the caller's process, joinable, then state.
   */
  function Decide(t: Thread, tid: int, currProc: nat): (v: Verdict)
    ensures v == Skip <==> t.tid != tid
    ensures v == Panic <==> t.tid == tid && t.father.None?
    ensures v == NotPeer <==> t.tid == tid && t.father.Some? && t.father.value != currProc
    ensures v == Detached <==> t.tid == tid && t.father == Some(currProc) && t.detached
    ensures v == Reap <==> t.tid == tid && t.father == Some(currProc) && !t.detached && t.state == ThrdTerminated
    ensures v == Gone <==> t.tid == tid && t.father == Some(currProc) && !t.detached
                           && (t.state == ThrdDead || t.state == ThrdStopped)
  {
    if t.tid != tid then Skip
    else if t.father.None? then Panic
    else if t.father.value != currProc then NotPeer
    else if t.detached then Detached
    else if t.state == ThrdTerminated then Reap
    else if t.state == ThrdDead || t.state == ThrdStopped then Gone
    else Live
  }

  /** The end of one walk over the table. */
  datatype ScanResult =
    | Stop(slot: nat, verdict: Verdict)   // slot `slot` settled the call
    | NotFound                            // no thread has the ID
    | MustWait                            // some thread has the ID, none settled the call

  /**
   * The walk from slot `i` on, `found` recording whether an earlier slot
   * matched. It stops at the first decisive slot; otherwise it ends in
   * NotFound exactly when no slot matched.
   */
  function JoinScan(tab: seq<Thread>, tid: int, currProc: nat, i: nat, found: bool): (r: ScanResult)
    requires i <= |tab|
    ensures r.Stop? ==>
      && i <= r.slot < |tab|
      && r.verdict == Decide(tab[r.slot], tid, currProc) && Decisive(r.verdict)
      && forall j :: i <= j < r.slot ==> !Decisive(Decide(tab[j], tid, currProc))
    ensures !r.Stop? ==> forall j :: i <= j < |tab| ==> !Decisive(Decide(tab[j], tid, currProc))
    ensures r.NotFound? <==> !found && forall j :: i <= j < |tab| ==> tab[j].tid != tid
    decreases |tab| - i
  {
    if i == |tab| then (if found then MustWait else NotFound)
    else
      var v := Decide(tab[i], tid, currProc);
      if Decisive(v) then Stop(i, v)
      else JoinScan(tab, tid, currProc, i + 1, found || tab[i].tid == tid)
  }

  /**
   * What the system call returns; JoinRepeat means the caller was put to
   * wait and the walk starts over, JoinNullRetval that a NULL `retval`
   * argument was dereferenced to store a reaped thread's return value.
   */
  datatype JoinResult = JoinOk | JoinEsrch | JoinEinval | JoinPanic | JoinRepeat | JoinNullRetval

  function ResultOf(s: ScanResult): JoinResult
  {
    match s
    case NotFound => JoinEsrch
    case MustWait => JoinRepeat
    case Stop(_, v) =>
      match v
      case Panic => JoinPanic
      case NotPeer => JoinEsrch
      case Detached => JoinEinval
      case _ => JoinOk
  }

  /**
   * ESRCH means that no thread has the ID or that the first deciding
   * match belongs to another process; EINVAL that it is detached; and the
   * caller waits exactly when some thread has the ID and every match is a
   * live, joinable thread of the caller's process.
   */
  lemma JoinResultMeaning(tab: seq<Thread>, tid: int, currProc: nat)
    ensures var s := JoinScan(tab, tid, currProc, 0, false);
      && (ResultOf(s) == JoinEsrch <==>
            (forall j :: 0 <= j < |tab| ==> tab[j].tid != tid)
            || (s.Stop? && tab[s.slot].father.Some? && tab[s.slot].father.value != currProc))
      && (ResultOf(s) == JoinEinval <==> s.Stop? && tab[s.slot].father == Some(currProc) && tab[s.slot].detached)
      && (ResultOf(s) == JoinRepeat <==>
            (exists j :: 0 <= j < |tab| && tab[j].tid == tid)
            && forall j :: 0 <= j < |tab| && tab[j].tid == tid ==>
                 tab[j].father == Some(currProc) && !tab[j].detached
                 && tab[j].state in {ThrdReady, ThrdRunning, ThrdWaiting})
  {
    var s := JoinScan(tab, tid, currProc, 0, false);
    if ResultOf(s) == JoinRepeat {
      assert s.MustWait?;
      forall j | 0 <= j < |tab| && tab[j].tid == tid
        ensures tab[j].father == Some(currProc) && !tab[j].detached
        ensures tab[j].state in {ThrdReady, ThrdRunning, ThrdWaiting}
      {
        assert !Decisive(Decide(tab[j], tid, currProc));
      }
    }
  }

  /** When the ID is unique in the table, the one thread that has it decides the call. */
  lemma UniqueThreadDecides(tab: seq<Thread>, tid: int, currProc: nat, m: nat)
    requires m < |tab| && tab[m].tid == tid
    requires forall j :: 0 <= j < |tab| && j != m ==> tab[j].tid != tid
    ensures JoinScan(tab, tid, currProc, 0, false)
         == if Decisive(Decide(tab[m], tid, currProc)) then Stop(m, Decide(tab[m], tid, currProc)) else MustWait
  {
  }

  /**
   * `sys_pthread_join`, one walk of the table. A reaped thread is handed
   * to `clear_thread`, whose effect on the slot is not modelled: the return
   * value the slot holds afterwards is `retvalAfterClear`. When that value
   * is not NULL (0) it is stored through the caller's `retval` argument
   * (`written`), which faults when the argument is NULL. When the caller
   * must wait, its thread becomes WAITING and `yield` is called.
   */
  method SysPthreadJoin(k: Kernel, tid: int, retvalAfterClear: int, retvalArgIsNull: bool)
    returns (result: JoinResult, written: Option<int>)
    requires k.Valid()
    requires JoinScan(k.threadtab[..], tid, k.currProc, 0, false).MustWait? ==> k.cpus[k.currCore].currThread.Some?
    modifies k`events, k.threadtab
    ensures k.Valid()
    ensures var s := JoinScan(old(k.threadtab[..]), tid, k.currProc, 0, false);
      && (s.Stop? && s.verdict == Reap ==>
            && k.events == old(k.events) + [ClearThread(s.slot)]
            && k.threadtab[..] == old(k.threadtab[..])
            && (retvalAfterClear == 0 ==> result == JoinOk && written == None)
            && (retvalAfterClear != 0 && retvalArgIsNull ==> result == JoinNullRetval && written == None)
            && (retvalAfterClear != 0 && !retvalArgIsNull ==> result == JoinOk && written == Some(retvalAfterClear)))
      && (!(s.Stop? && s.verdict == Reap) ==> result == ResultOf(s) && written == None)
      && (s.MustWait? ==>
            var me := k.cpus[k.currCore].currThread.value;
            && k.threadtab[..] == old(k.threadtab[..])[me := old(k.threadtab[me]).(state := ThrdWaiting)]
            && k.events == old(k.events) + [Yield])
      && (!s.MustWait? && !(s.Stop? && s.verdict == Reap) ==>
            k.threadtab[..] == old(k.threadtab[..]) && k.events == old(k.events))
  {
    written := None;
    var found := false;
    var i := 0;
    while i < k.threadtab.Length
      invariant 0 <= i <= k.threadtab.Length
      invariant JoinScan(k.threadtab[..], tid, k.currProc, 0, false) == JoinScan(k.threadtab[..], tid, k.currProc, i, found)
    {
      var t := k.threadtab[i];
      if t.tid == tid {
        found := true;
        if t.father.None? {
          result := JoinPanic;
          return;
        }
        if t.father.value != k.currProc {
          result := JoinEsrch;
          return;
        }
        if t.detached {
          result := JoinEinval;
          return;
        }
        if t.state == ThrdTerminated {
          k.events := k.events + [ClearThread(i)];
          if retvalAfterClear != 0 {
            if retvalArgIsNull {
              result := JoinNullRetval;
              return;
            }
            written := Some(retvalAfterClear);
          }
          result := JoinOk;
          return;
        } else if t.state == ThrdDead || t.state == ThrdStopped {
          result := JoinOk;
          return;
        }
      }
      i := i + 1;
    }
    if !found {
      result := JoinEsrch;
      return;
    }
    var me := k.cpus[k.currCore].currThread.value;
    k.threadtab[me] := k.threadtab[me].(state := ThrdWaiting);
    k.events := k.events + [Yield];
    result := JoinRepeat;
  }
}
