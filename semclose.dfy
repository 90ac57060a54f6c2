/**
 * The `semclose` system call: check the index, take one off the count of
 * processes using the semaphore, and free the semaphore when the count
 * reaches 0 while the semaphore's `unlinked` field is 0.
 */
module SemClose {
  import opened Base
  import opened Sem
  import opened KernelState

  /** The semaphore after one close, and whether it is freed. */
  function CloseSlot(s: Ksem): (Ksem, bool)
  {
    var s' := s.(nbproc := s.nbproc - 1);
    (s', s'.nbproc == 0 && s'.unlinked == 0)
  }

  /**
   * A close frees the semaphore exactly when it was the last user's and
   * the `unlinked` field is 0: a semaphore whose `unlinked` field is set is
   * never freed by a close, and a close with no user left drives the
   * count below 0 without freeing.
   */
  lemma CloseEffect(s: Ksem)
    ensures var (s', frees) := CloseSlot(s);
      && s'.nbproc == s.nbproc - 1
      && s' == s.(nbproc := s'.nbproc)
      && (frees <==> s.nbproc == 1 && s.unlinked == 0)
      && (s.unlinked != 0 ==> !frees)
      && (s.nbproc <= 0 ==> !frees && s'.nbproc < 0)
  {
  }

  /** Number of frees over `n` successive closes of the same semaphore. */
  function FreesOver(s: Ksem, n: nat): nat
    decreases n
  {
    if n == 0 then 0
    else
      var (s', frees) := CloseSlot(s);
      (if frees then 1 else 0) + FreesOver(s', n - 1)
  }

  /**
   * Of `n` closes by the processes using a semaphore, exactly one frees it
   * when its `unlinked` field is 0 and all `nbproc` users close (the last
   * one); none does otherwise.
   */
  lemma {:induction false} ClosesFreeOnce(s: Ksem, n: nat)
    ensures FreesOver(s, n) == if s.unlinked == 0 && 1 <= s.nbproc <= n then 1 else 0
    decreases n
  {
    if n > 0 {
      var (s', frees) := CloseSlot(s);
      ClosesFreeOnce(s', n - 1);
    }
  }

  /** What the system call returns: 0, or SEM_FAILED for a bad index. */
  datatype CloseResult = CloseOk | CloseFailed

  /** `sys_semclose(idx)`. */
  method SysSemClose(k: Kernel, idx: int) returns (result: CloseResult)
    requires k.Valid()
    modifies k`events, k.semtable.slots
    ensures k.Valid()
    ensures !SemIsValid(idx) ==>
      result == CloseFailed && k.semtable.slots[..] == old(k.semtable.slots[..]) && k.events == old(k.events)
    ensures SemIsValid(idx) ==>
      var (s', frees) := CloseSlot(old(k.semtable.slots[idx]));
      && result == CloseOk
      && k.semtable.slots[..] == old(k.semtable.slots[..])[idx := s']
      && k.events == old(k.events) + (if frees then [FreeSem(idx)] else [])
  {
    if !SemIsValid(idx) {
      result := CloseFailed;
      return;
    }
    k.semtable.slots[idx] := k.semtable.slots[idx].(nbproc := k.semtable.slots[idx].nbproc - 1);
    if k.semtable.slots[idx].nbproc == 0 && k.semtable.slots[idx].unlinked == 0 {
      k.events := k.events + [FreeSem(idx)];
    }
    result := CloseOk;
  }
}
