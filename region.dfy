/**
 * Memory-region definitions used by process management: the region flag
 * bits, the region dimensions, the "address within region" test and the
 * mini-region index of an address. Addresses and sizes are 32-bit
 * unsigned values, so the bounds `start - size` and `start + size` wrap.
 */
module Region {
  import opened Base

  /** Region flags. */
  const REGION_FREE: bv32 := 0x01
  const REGION_SHARED: bv32 := 0x02
  const REGION_LOCKED: bv32 := 0x04
  const REGION_STICKY: bv32 := 0x08
  const REGION_DOWNWARDS: bv32 := 0x10
  const REGION_UPWARDS: bv32 := 0x20

  function RegionFlags(): seq<bv32>
  {
    [REGION_FREE, REGION_SHARED, REGION_LOCKED, REGION_STICKY, REGION_DOWNWARDS, REGION_UPWARDS]
  }

  predicate IsSingleBit(b: bv32)
  {
    b != 0 && b & (b - 1) == 0
  }

  /** Each region flag is one bit, and no two flags share it. */
  lemma RegionFlagsAreDistinctBits()
    ensures forall i :: 0 <= i < |RegionFlags()| ==> IsSingleBit(RegionFlags()[i])
    ensures forall i, j :: 0 <= i < j < |RegionFlags()| ==> RegionFlags()[i] & RegionFlags()[j] == 0
  {
  }

  /** Bytes mapped by one page table on i386 (1024 entries of 4 KiB pages). */
  const PGTAB_SIZE: nat := 0x40_0000

  /** Region dimensions. */
  const REGION_PGTABS: nat := 16
  const NR_MINIREGIONS: nat := 128
  const MREGIONS: nat := 8
  const MREGION_SHIFT: nat := 26
  const REGION_SIZE: nat := REGION_PGTABS * MREGIONS * PGTAB_SIZE

  /**
   * A region is MREGIONS mini regions of REGION_PGTABS page tables each,
   * and one mini region spans exactly the 2^MREGION_SHIFT bytes that share
   * one MRTAB index.
   */
  lemma RegionDimensions()
    ensures REGION_SIZE == MREGIONS * (REGION_PGTABS * PGTAB_SIZE)
    ensures REGION_PGTABS * PGTAB_SIZE == 0x400_0000 && MREGION_SHIFT == 26
  {
  }

  /** The region a process region points to: its flags and size. */
  datatype MemRegion = MemRegion(flags: bv32, size: u32)

  /** A process region: start address and the underlying region. */
  datatype Pregion = Pregion(start: u32, reg: MemRegion)

  predicate GrowsDownwards(preg: Pregion)
  {
    preg.reg.flags & REGION_DOWNWARDS != 0
  }

  /** `withinreg(preg, addr)`, with the unsigned bounds of the C expression. */
  predicate WithinReg(preg: Pregion, addr: u32)
  {
    if GrowsDownwards(preg) then
      addr <= preg.start && addr >= SubU32(preg.start, preg.reg.size)
    else
      addr >= preg.start && addr < AddU32(preg.start, preg.reg.size)
  }

  /** An upward region that does not reach the top of the address space is the half-open [start, start + size). */
  lemma WithinUpwardRegion(preg: Pregion, addr: u32)
    requires !GrowsDownwards(preg) && preg.start + preg.reg.size < U32_LIMIT
    ensures WithinReg(preg, addr) <==> preg.start <= addr < preg.start + preg.reg.size
  {
  }

  /** A downward region that does not pass address 0 is the closed [start - size, start]. */
  lemma WithinDownwardRegion(preg: Pregion, addr: u32)
    requires GrowsDownwards(preg) && preg.reg.size <= preg.start
    ensures WithinReg(preg, addr) <==> preg.start - preg.reg.size <= addr <= preg.start
  {
  }

  /**
   * When a bound wraps (a downward region larger than its start address,
   * or an upward region whose end reaches 2^32), the test holds for no
   * address at all.
   */
  lemma WrappedRegionContainsNothing(preg: Pregion, addr: u32)
    requires GrowsDownwards(preg) ==> preg.start < preg.reg.size
    requires !GrowsDownwards(preg) ==> U32_LIMIT <= preg.start + preg.reg.size
    ensures !WithinReg(preg, addr)
  {
  }

  /**
   * `MRTAB(a)`: the mini-region table entry of address `a`. The shift of
   * an unsigned value by MREGION_SHIFT is written as the division by
   * 2^MREGION_SHIFT it performs.
   */
  function Mrtab(a: u32): (r: nat)
    ensures r < 64
    ensures r * 0x400_0000 <= a < (r + 1) * 0x400_0000
  {
    a / 0x400_0000
  }
}
