/**
 * The i386 clock: the timer interrupt handler, which counts ticks, charges
 * the tick to the current process's kernel or user time and runs down the
 * current thread's quantum; and the initialisation of the Intel 8254
 * programmable interval timer's channel 0.
 */
module Clock {
  import opened Base
  import opened Threads
  import opened Pm
  import opened KernelState

  /** Input clock of the 8254 timer, in Hz. */
  const PIT_FREQUENCY: nat := 1193182

  /*
   * The timer interrupt.
   */

  /**
   * `do_clock`: one more tick; a tick that interrupted kernel code is
   * charged to the process's kernel time; any other tick is charged to its
   * user time and takes one off the thread's quantum, yielding the
   * processor when the quantum reaches 0.
   */
  method DoClock(k: Kernel)
    requires k.Valid() && k.cpus[k.currCore].currThread.Some?
    modifies k`ticks, k`events, k.proctab, k.threadtab
    ensures k.Valid()
    ensures k.ticks == IncU32(old(k.ticks))
    ensures var t := k.cpus[k.currCore].currThread.value;
      var p := old(k.proctab[k.currProc]);
      var th := old(k.threadtab[t]);
      if KernelWasRunning(th) then
        && k.proctab[..] == old(k.proctab[..])[k.currProc := p.(ktime := IncU32(p.ktime))]
        && k.threadtab[..] == old(k.threadtab[..])
        && k.events == old(k.events)
      else
        && k.proctab[..] == old(k.proctab[..])[k.currProc := p.(utime := IncU32(p.utime))]
        && k.threadtab[..] == old(k.threadtab[..])[t := th.(counter := th.counter - 1)]
        && k.events == old(k.events) + (if th.counter == 1 then [Yield] else [])
  {
    k.ticks := IncU32(k.ticks);
    var t := k.cpus[k.currCore].currThread.value;
    if KernelWasRunning(k.threadtab[t]) {
      k.proctab[k.currProc] := k.proctab[k.currProc].(ktime := IncU32(k.proctab[k.currProc].ktime));
      return;
    }
    k.proctab[k.currProc] := k.proctab[k.currProc].(utime := IncU32(k.proctab[k.currProc].utime));
    k.threadtab[t] := k.threadtab[t].(counter := k.threadtab[t].counter - 1);
    if k.threadtab[t].counter == 0 {
      k.events := k.events + [Yield];
    }
  }

  /** Yields caused by `n` successive user-mode ticks of a thread whose quantum counter starts at `counter`. */
  function YieldsOver(counter: int, n: nat): nat
    decreases n
  {
    if n == 0 then 0
    else (if counter - 1 == 0 then 1 else 0) + YieldsOver(counter - 1, n - 1)
  }

  /**
   * A thread running in user mode gives up the processor exactly once over
   * `n` ticks when its quantum counter is between 1 and `n`, and never when
   * the counter is 0 or below (the count goes on down without yielding).
   */
  lemma {:induction false} QuantumYieldsOnce(counter: int, n: nat)
    ensures YieldsOver(counter, n) == if 1 <= counter <= n then 1 else 0
    decreases n
  {
    if n > 0 {
      QuantumYieldsOnce(counter - 1, n - 1);
    }
  }

  /*
   * Timer initialisation.
   */

  /** `PIT_FREQUENCY/freq` stored in a 16-bit variable: the quotient modulo 2^16. */
  function FreqDivisor(freq: nat): (d: nat)
    requires freq > 0
    ensures d < 0x1_0000
  {
    (PIT_FREQUENCY / freq) % 0x1_0000
  }

  /** The two data bytes: low byte first, then high byte. */
  function DivisorBytes(d: nat): (bytes: (byte, byte))
    requires d < 0x1_0000
    ensures bytes.1 * 0x100 + bytes.0 == d
  {
    (d % 0x100, d / 0x100)
  }

  lemma MulIsMonotonic(q: nat, a: nat, b: nat)
    requires a <= b
    ensures q * a <= q * b
  {
    assert q * b == q * a + q * (b - a);
  }

  /**
   * The divisor the timer receives is the exact quotient exactly when
   * `freq` is at least 19 Hz; below that the quotient does not fit in 16
   * bits and is truncated.
   */
  lemma DivisorIsExactFrom19Hz(freq: nat)
    requires freq > 0
    ensures FreqDivisor(freq) == PIT_FREQUENCY / freq <==> freq >= 19
  {
    var q := PIT_FREQUENCY / freq;
    if freq >= 19 {
      MulIsMonotonic(q, 19, freq);
      assert q * 19 <= PIT_FREQUENCY;
    } else {
      MulIsMonotonic(q + 1, freq, 18);
      assert PIT_FREQUENCY < (q + 1) * 18;
      assert q >= 0x1_0000;
    }
  }

  /** An 8254 control word: counter, access mode, operating mode, BCD counting. */
  datatype PitControl = PitControl(channel: nat, access: nat, mode: nat, bcd: bool)

  function DecodeControl(b: byte): PitControl
  {
    PitControl(b / 64, (b / 16) % 4, (b / 2) % 8, b % 2 == 1)
  }

  /** The control byte used, 0x36: channel 0, low byte then high byte, mode 3 (square wave), binary count. */
  const PIT_CONTROL_WORD: byte := 0x36

  lemma ControlWordProgramsChannel0SquareWave()
    ensures DecodeControl(PIT_CONTROL_WORD) == PitControl(0, 3, 3, false)
  {
  }

  /** `clock_init(freq)`: install the handler, then program channel 0 with the divisor for `freq`. */
  method ClockInit(k: Kernel, freq: nat)
    requires k.Valid() && 0 < freq < U32_LIMIT
    modifies k`events
    ensures var (lo, hi) := DivisorBytes(FreqDivisor(freq));
      k.events == old(k.events) + [HandlerSet(IntClock), PortOut(PIT_CTRL, PIT_CONTROL_WORD),
                                   PortOut(PIT_DATA, lo), PortOut(PIT_DATA, hi)]
  {
    k.events := k.events + [HandlerSet(IntClock)];
    var freqDivisor := (PIT_FREQUENCY / freq) % 0x1_0000;
    k.events := k.events + [PortOut(PIT_CTRL, PIT_CONTROL_WORD)];
    k.events := k.events + [PortOut(PIT_DATA, freqDivisor % 0x100)];
    k.events := k.events + [PortOut(PIT_DATA, freqDivisor / 0x100)];
  }

  /**
   * The bytes written to the data port recombine to the divisor, which for
   * every frequency from 19 Hz up divides the input clock exactly.
   */
  lemma ProgrammedDivisor(freq: nat)
    requires 19 <= freq
    ensures var (lo, hi) := DivisorBytes(FreqDivisor(freq));
      hi * 0x100 + lo == PIT_FREQUENCY / freq
  {
    DivisorIsExactFrom19Hz(freq);
  }
}
