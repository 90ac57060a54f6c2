/**
 * Multi-processor support on i386, which runs on one core: the current
 * core is always core 0, there is one core, and start-up only selects the
 * uniprocessor `yield`.
 */
module SmpI386 {
  import opened Base
  import opened KernelState

  /** `smp_get_coreid`: the running core is the master. */
  function GetCoreId(): (id: nat)
    ensures id == CORE_MASTER && id == INITIAL_CURR_CORE
  {
    0
  }

  /** `smp_get_numcores`: a single core. */
  function GetNumCores(): (n: nat)
    ensures n == 1
  {
    1
  }

  /** The core the kernel runs on is the only core, and `curr_core` starts out naming it. */
  lemma OnlyCoreIsMaster(c: nat)
    ensures c < GetNumCores() <==> c == GetCoreId()
    ensures GetCoreId() == INITIAL_CURR_CORE
  {
  }

  /** `smp_init`: select the uniprocessor `yield` and change nothing else. */
  method SmpInit(k: Kernel)
    modifies k`yieldFn
    ensures k.yieldFn == YieldUp
  {
    k.yieldFn := YieldUp;
  }
}
