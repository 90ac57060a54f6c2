/**
 * Kernel named semaphores: the semaphore record, the semaphore table and
 * the index, value and mode-bit definitions that go with them.
 */
module Sem {
  import opened Base
  import Pm

  /** Number of semaphore-table slots (from the kernel configuration). */
  const SEM_OPEN_MAX: nat := 16

  /** Largest semaphore value (the POSIX minimum for SEM_VALUE_MAX). */
  const SEM_VALUE_MAX: int := 32767

  /** Mode bits: the "unlinked" mark (octal 0100000) and the permission bits (octal 0777). */
  const UNLINKED: bv32 := 0x8000
  const PERMISSIONS: bv32 := 0x1ff

  /** The unlinked mark lies outside the permission bits. */
  lemma ModeMasksAreDisjoint()
    ensures UNLINKED & PERMISSIONS == 0
    ensures UNLINKED == 32768 && PERMISSIONS == 511
  {
  }

  /**
   * A kernel semaphore. `nbproc` (number of processes using it) and
   * `unlinked` are the fields semaphore close relies on.
   */
  datatype Ksem = Ksem(
    name: seq<char>,
    value: short,
    currprocs: seq<int>,            // pids of the processes using the semaphore
    semwaiters: seq<Option<nat>>,   // sleeping chain of waiting threads
    dev: int,
    num: int,
    nbproc: int,
    unlinked: int)

  /** A semaphore records PROC_MAX owner pids and THRD_MAX waiter slots. */
  predicate WellFormed(s: Ksem)
  {
    |s.currprocs| == Pm.PROC_MAX && |s.semwaiters| == Pm.THRD_MAX
  }

  /** `SEM_IS_VALID(idx)`. */
  predicate SemIsValid(idx: int)
  {
    idx >= 0 && idx < SEM_OPEN_MAX
  }

  /** `SEM_VALID_VALUE(val)`: only an upper bound. */
  predicate SemValidValue(val: int)
  {
    val <= SEM_VALUE_MAX
  }

  /**
   * SEM_VALID_VALUE checks the upper bound only: every value up to
   * SEM_VALUE_MAX passes, however negative, and every larger value fails.
   */
  lemma SemValidValueHasNoLowerBound(v: int)
    ensures v <= SEM_VALUE_MAX ==> SemValidValue(v) && SemValidValue(v - 0x1_0000)
    ensures SEM_VALUE_MAX < v ==> !SemValidValue(v)
  {
  }

  /** The process with pid `pid` has the semaphore open. */
  predicate Opened(s: Ksem, pid: int)
  {
    pid in s.currprocs
  }

  /** The semaphore table `semtable`. */
  class SemTable {
    const slots: array<Ksem>

    ghost predicate Valid()
      reads this, slots
    {
      slots.Length == SEM_OPEN_MAX && forall i :: 0 <= i < slots.Length ==> WellFormed(slots[i])
    }

    constructor (init: seq<Ksem>)
      requires |init| == SEM_OPEN_MAX && forall i :: 0 <= i < |init| ==> WellFormed(init[i])
      ensures Valid() && fresh(slots) && slots[..] == init
    {
      slots := new Ksem[|init|](i requires 0 <= i < |init| => init[i]);
    }

    /**
     * `SEM_IS_FREE(idx)`: the macro assigns 0 to the inode number of the
     * slot and yields the assigned value, so it always answers false.
     */
    method IsFree(idx: int) returns (free: bool)
      requires Valid() && SemIsValid(idx)
      modifies slots
      ensures Valid() && !free
      ensures slots[..] == old(slots[..])[idx := old(slots[idx]).(num := 0)]
    {
      slots[idx] := slots[idx].(num := 0);
      free := slots[idx].num != 0;
    }
  }

  /** A valid index addresses a slot of the table, and every slot has a valid index. */
  lemma ValidIndexAddressesTable(t: SemTable, idx: int)
    requires t.Valid()
    ensures SemIsValid(idx) <==> 0 <= idx < t.slots.Length
  {
  }
}
