/**
 * Multi-processor start-up on or1k. With more than one core, the master
 * checks for shadow registers, initialises the interrupt controller,
 * releases the secondary cores one after another through `release_cpu`,
 * marks itself RUNNING, resets every secondary core's record to READY with
 * no thread or process, and selects the multi-processor `yield`. With one
 * core it selects the uniprocessor `yield`. The number of cores and the
 * shadow-register flag are read from special-purpose registers; here they
 * are parameters.
 */
module SmpOr1k {
  import opened Base
  import opened KernelState

  /**
   * The release loop for cores 1 .. n-1, in order: each round takes the
   * boot lock (which the core released in the previous round gives back)
   * and then writes `release_cpu`.
   */
  function ReleaseSequence(n: nat): (r: seq<Event>)
    ensures |r| == if n <= 1 then 0 else 2 * (n - 1)
    decreases n
  {
    if n <= 1 then [] else ReleaseSequence(n - 1) + [BootLockTaken, CpuReleased(n - 1)]
  }

  /** Even positions take the lock; position 2i+1 releases core i+1. */
  lemma {:induction false} ReleaseSequenceShape(n: nat)
    ensures forall j :: 0 <= j < |ReleaseSequence(n)| ==>
      ReleaseSequence(n)[j] == if j % 2 == 0 then BootLockTaken else CpuReleased(j / 2 + 1)
    decreases n
  {
    if n > 1 {
      ReleaseSequenceShape(n - 1);
    }
  }

  /**
   * Each secondary core is released exactly once and the master never;
   * the releases go in increasing core order, and every release is
   * preceded by taking the boot lock.
   */
  lemma ReleasesEachSecondaryOnce(n: nat, c: nat)
    ensures CpuReleased(c) in ReleaseSequence(n) <==> 1 <= c < n
    ensures forall i, j :: 0 <= i < j < |ReleaseSequence(n)| && ReleaseSequence(n)[i].CpuReleased? && ReleaseSequence(n)[j].CpuReleased?
              ==> ReleaseSequence(n)[i].core < ReleaseSequence(n)[j].core
    ensures forall j :: 0 <= j < |ReleaseSequence(n)| && ReleaseSequence(n)[j].CpuReleased? ==> 0 < j && ReleaseSequence(n)[j - 1] == BootLockTaken
  {
    var r := ReleaseSequence(n);
    ReleaseSequenceShape(n);
    if 1 <= c < n {
      assert r[2 * (c - 1) + 1] == CpuReleased(c);
    }
    if CpuReleased(c) in r {
      var j :| 0 <= j < |r| && r[j] == CpuReleased(c);
      assert j % 2 == 1 && c == j / 2 + 1;
    }
  }

  /** The record of a secondary core after start-up. */
  function ReadyCore(c: PerCore): PerCore
  {
    c.(currThread := None, currProc := None, nextThread := None, state := CoreReady)
  }

  /** How start-up ends. */
  datatype SmpOutcome = SmpStarted | UniprocessorStarted | NoShadowRegisters

  /** `smp_init`. */
  method SmpInit(k: Kernel, numcores: u32, hasShadowGprs: bool) returns (outcome: SmpOutcome)
    requires k.Valid() && numcores <= k.cpus.Length
    modifies k`releaseCpu, k`yieldFn, k`smpEnabled, k`events, k.cpus
    ensures k.Valid()
    ensures numcores <= 1 ==>
      && outcome == UniprocessorStarted && k.yieldFn == YieldUp
      && k.smpEnabled == old(k.smpEnabled) && k.releaseCpu == old(k.releaseCpu)
      && k.cpus[..] == old(k.cpus[..]) && k.events == old(k.events)
    ensures 1 < numcores && !hasShadowGprs ==>
      && outcome == NoShadowRegisters && k.yieldFn == old(k.yieldFn)
      && k.smpEnabled == old(k.smpEnabled) && k.releaseCpu == old(k.releaseCpu)
      && k.cpus[..] == old(k.cpus[..]) && k.events == old(k.events)
    ensures 1 < numcores && hasShadowGprs ==>
      && outcome == SmpStarted && k.yieldFn == YieldSmp && k.smpEnabled == 1
      && k.releaseCpu == numcores - 1
      && k.events == old(k.events) + [BootLockInit, OmpicInit] + ReleaseSequence(numcores) + [BootLockTaken, BootLockReleased]
      && k.cpus[0] == old(k.cpus[0]).(state := CoreRunning)
      && (forall i :: 1 <= i < numcores ==> k.cpus[i] == ReadyCore(old(k.cpus[i])))
      && (forall i :: numcores <= i < k.cpus.Length ==> k.cpus[i] == old(k.cpus[i]))
  {
    if numcores > 1 {
      if !hasShadowGprs {
        outcome := NoShadowRegisters;
        return;
      }
      k.events := k.events + [BootLockInit];
      k.events := k.events + [OmpicInit];
      var cpu: u32 := 1;
      while cpu < numcores
        invariant 1 <= cpu <= numcores
        invariant k.events == old(k.events) + [BootLockInit, OmpicInit] + ReleaseSequence(cpu)
        invariant cpu > 1 ==> k.releaseCpu == cpu - 1
        invariant k.cpus[..] == old(k.cpus[..])
      {
        assert ReleaseSequence(cpu + 1) == ReleaseSequence(cpu) + [BootLockTaken, CpuReleased(cpu)];
        k.events := k.events + [BootLockTaken];
        k.releaseCpu := cpu;
        k.events := k.events + [CpuReleased(cpu)];
        cpu := cpu + 1;
      }
      k.events := k.events + [BootLockTaken];
      k.events := k.events + [BootLockReleased];
      k.cpus[0] := k.cpus[0].(state := CoreRunning);
      var i: u32 := 1;
      while i < numcores
        invariant 1 <= i <= numcores
        invariant k.cpus[0] == old(k.cpus[0]).(state := CoreRunning)
        invariant forall j :: 1 <= j < i ==> k.cpus[j] == ReadyCore(old(k.cpus[j]))
        invariant forall j :: i <= j < k.cpus.Length ==> k.cpus[j] == old(k.cpus[j])
        invariant forall j :: 0 <= j < k.cpus.Length ==> CoreRefsInRange(k.cpus[j])
        invariant k.releaseCpu == numcores - 1
        invariant k.events == old(k.events) + [BootLockInit, OmpicInit] + ReleaseSequence(numcores) + [BootLockTaken, BootLockReleased]
      {
        k.cpus[i] := k.cpus[i].(currThread := None);
        k.cpus[i] := k.cpus[i].(currProc := None);
        k.cpus[i] := k.cpus[i].(nextThread := None);
        k.cpus[i] := k.cpus[i].(state := CoreReady);
        i := i + 1;
      }
      k.yieldFn := YieldSmp;
      k.smpEnabled := 1;
      outcome := SmpStarted;
    } else {
      k.yieldFn := YieldUp;
      outcome := UniprocessorStarted;
    }
  }
}
