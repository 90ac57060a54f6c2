/**
 * The `sempost` system call: check the index, check that the calling
 * process has the semaphore open, get the semaphore's inode, add one to
 * the value, wake the waiters when the value becomes 1, and release the
 * inode. The inode lookup is a collaborator: whether it finds the inode is
 * a parameter.
 */
module SemPost {
  import opened Base
  import opened Pm
  import opened Sem
  import opened KernelState

  /** The search of the semaphore's owner table for a pid (the `for` loop over PROC_MAX entries). */
  method FindOwner(procs: seq<int>, pid: int) returns (i: nat)
    ensures i <= |procs|
    ensures i < |procs| ==> procs[i] == pid
    ensures forall j :: 0 <= j < i ==> procs[j] != pid
    ensures i == |procs| <==> pid !in procs
  {
    i := 0;
    while i < |procs| && procs[i] != pid
      invariant i <= |procs|
      invariant forall j :: 0 <= j < i ==> procs[j] != pid
    {
      i := i + 1;
    }
  }

  /** The semaphore after a post, and whether its waiters are woken. */
  function PostSlot(s: Ksem): (Ksem, bool)
  {
    var value := IncShort(s.value);
    (s.(value := value), value == 1)
  }

  /**
   * A post adds exactly one to a value below SEM_VALUE_MAX (the largest
   * `short`) and wakes the waiters exactly when the value was 0; at
   * SEM_VALUE_MAX the value wraps to the smallest `short` and nobody is
   * woken. Nothing but the value changes.
   */
  lemma PostEffect(s: Ksem)
    ensures var (s', wakes) := PostSlot(s);
      && (wakes <==> s.value == 0)
      && (s.value < SEM_VALUE_MAX ==> s'.value == s.value + 1)
      && (s.value == SEM_VALUE_MAX ==> s'.value == -SEM_VALUE_MAX - 1)
      && s' == s.(value := s'.value)
  {
  }

  /** What the system call returns: 0, -EINVAL (bad index), -1 (not opened), -EINVAL (no inode). */
  datatype PostResult = PostOk | PostInvalid | PostNotOpened | PostNoInode

  /** `sys_sempost(idx)`; `inodeFound` is what the inode lookup answers. */
  method SysSemPost(k: Kernel, idx: int, inodeFound: bool) returns (result: PostResult)
    requires k.Valid()
    modifies k`events, k.semtable.slots
    ensures k.Valid()
    ensures !SemIsValid(idx) ==>
      result == PostInvalid && k.semtable.slots[..] == old(k.semtable.slots[..]) && k.events == old(k.events)
    ensures SemIsValid(idx) && !Opened(old(k.semtable.slots[idx]), k.proctab[k.currProc].pid) ==>
      result == PostNotOpened && k.semtable.slots[..] == old(k.semtable.slots[..]) && k.events == old(k.events)
    ensures SemIsValid(idx) && Opened(old(k.semtable.slots[idx]), k.proctab[k.currProc].pid) ==>
      var s := old(k.semtable.slots[idx]);
      var get := [InodeGet(s.dev, s.num)];
      if !inodeFound then
        && result == PostNoInode
        && k.semtable.slots[..] == old(k.semtable.slots[..])
        && k.events == old(k.events) + get
      else
        var (s', wakes) := PostSlot(s);
        && result == PostOk
        && k.semtable.slots[..] == old(k.semtable.slots[..])[idx := s']
        && k.events == old(k.events) + get + (if wakes then [Wakeup(idx)] else []) + [InodePut, InodeUnlock]
  {
    if !SemIsValid(idx) {
      result := PostInvalid;
      return;
    }
    var i := FindOwner(k.semtable.slots[idx].currprocs, k.proctab[k.currProc].pid);
    if i == PROC_MAX {
      result := PostNotOpened;
      return;
    }
    k.events := k.events + [InodeGet(k.semtable.slots[idx].dev, k.semtable.slots[idx].num)];
    if !inodeFound {
      result := PostNoInode;
      return;
    }
    k.semtable.slots[idx] := k.semtable.slots[idx].(value := IncShort(k.semtable.slots[idx].value));
    if k.semtable.slots[idx].value == 1 {
      k.events := k.events + [Wakeup(idx)];
    }
    k.events := k.events + [InodePut, InodeUnlock];
    result := PostOk;
  }
}
