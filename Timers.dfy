/** The timer and divider unit, DoTimers (Emulator.cpp:1134-1167). Two
    cycle accumulators drive TIMA (0xFF05) and DIV (0xFF04): TIMA counts
    when bit 2 of TAC (0xFF07) is set, reloads from TMA (0xFF06) when it
    overflows and then requests the timer interrupt (bit 2). */
module Timers {
  import opened Bits
  import opened Machine
  import opened MemoryProperties

  /** The TIMA half of DoTimers, after the cycles are added to the timer
      accumulator. The accumulator restarts at zero rather than keeping the
      excess, so one call advances TIMA by at most one. */
  function TimaStep(m: Machine, cycles: int): (r: Machine)
    requires Valid(m)
    ensures Valid(r)
  {
    var counter := m.timer.counter + cycles;
    if counter >= m.timer.clockSpeed then
      var tima := m.mem[0xFF05];
      var bumped := m.(timer := m.timer.(counter := 0), mem := m.mem[0xFF05 := tima + 1]);
      if tima == 0xFF then Request(bumped.(mem := bumped.mem[0xFF05 := m.mem[0xFF06]]), 2)
      else bumped
    else m.(timer := m.timer.(counter := counter))
  }

  /** The DIV half: once the accumulator reaches 256 it restarts at zero and
      DIV goes up by one, wrapping as a byte. */
  function DividerStep(m: Machine): (r: Machine)
    requires Valid(m)
    ensures Valid(r)
  {
    if m.timer.divider >= 256 then m.(timer := m.timer.(divider := 0), mem := m.mem[0xFF04 := m.mem[0xFF04] + 1])
    else m
  }

  /** DoTimers: both accumulators take the cycles, TIMA counts only while
      TAC bit 2 is set, then DIV is stepped. TAC is read straight from the
      flat memory. */
  function Tick(m: Machine, cycles: int): (r: Machine)
    requires Valid(m)
    ensures Valid(r)
  {
    DividerStep(Count(m, cycles))
  }

  /** The part of DoTimers before the DIV check. */
  function Count(m: Machine, cycles: int): (r: Machine)
    requires Valid(m)
    ensures Valid(r)
  {
    var counted := m.(timer := m.timer.(divider := m.timer.divider + cycles));
    if TestBit(m.mem[0xFF07], 2) then TimaStep(counted, cycles) else counted
  }

  // ---------------------------------------------------------------------
  // Properties
  // ---------------------------------------------------------------------

  /** What the accumulators always satisfy between calls: the period is
      one of the four TAC periods, and both accumulators stay below their
      thresholds. */
  predicate TimerInvariant(m: Machine)
  {
    && (m.timer.clockSpeed == 16 || m.timer.clockSpeed == 64 || m.timer.clockSpeed == 256 || m.timer.clockSpeed == 1024)
    && 0 <= m.timer.counter < m.timer.clockSpeed
    && 0 <= m.timer.divider < 256
  }

  /** The DIV step touches only DIV and the divider accumulator. */
  lemma DividerStepFrame(m: Machine)
    requires Valid(m)
    ensures var r := DividerStep(m);
      && r == m.(mem := r.mem, timer := m.timer.(divider := r.timer.divider))
      && forall k :: 0 <= k < MemorySize && k != 0xFF04 ==> r.mem[k] == m.mem[k]
  {
  }

  /** The counting part leaves DIV alone and adds the cycles to the
      divider accumulator. */
  lemma CountKeepsDivider(m: Machine, cycles: int)
    requires Valid(m)
    ensures Count(m, cycles).mem[0xFF04] == m.mem[0xFF04]
    ensures Count(m, cycles).timer.divider == m.timer.divider + cycles
  {
  }

  /** An overflowing TIMA is reloaded from TMA, the accumulator restarts,
      and the timer interrupt is requested. */
  lemma TimerOverflowReloads(m: Machine, cycles: int)
    requires Valid(m) && TestBit(m.mem[0xFF07], 2)
    requires m.timer.counter + cycles >= m.timer.clockSpeed && m.mem[0xFF05] == 0xFF
    ensures var r := Tick(m, cycles);
      && r.mem[0xFF05] == m.mem[0xFF06]
      && r.mem[0xFF0F] == BitSet(m.mem[0xFF0F], 2)
      && r.timer.counter == 0
  {
    DividerStepFrame(Count(m, cycles));
  }

  /** Below 0xFF TIMA just goes up by one when the period is reached, and
      no interrupt is requested. */
  lemma TimerIncrements(m: Machine, cycles: int)
    requires Valid(m) && TestBit(m.mem[0xFF07], 2)
    requires m.timer.counter + cycles >= m.timer.clockSpeed && m.mem[0xFF05] != 0xFF
    ensures var r := Tick(m, cycles);
      && r.mem[0xFF05] as int == m.mem[0xFF05] as int + 1
      && r.mem[0xFF0F] == m.mem[0xFF0F]
      && r.timer.counter == 0
  {
    DividerStepFrame(Count(m, cycles));
  }

  /** Before the period is reached, or while TAC bit 2 is clear, TIMA and
      the interrupt flags keep their values; only an enabled timer
      accumulates the cycles. */
  lemma TimerWaits(m: Machine, cycles: int)
    requires Valid(m)
    requires !TestBit(m.mem[0xFF07], 2) || m.timer.counter + cycles < m.timer.clockSpeed
    ensures var r := Tick(m, cycles);
      && r.mem[0xFF05] == m.mem[0xFF05]
      && r.mem[0xFF0F] == m.mem[0xFF0F]
      && r.timer.counter == if TestBit(m.mem[0xFF07], 2) then m.timer.counter + cycles else m.timer.counter
  {
    DividerStepFrame(Count(m, cycles));
  }

  /** DIV advances by one (a byte, so 0xFF goes to 0) exactly when the
      divider accumulator reaches 256, and the accumulator then restarts at
      zero. */
  lemma DividerAdvances(m: Machine, cycles: int)
    requires Valid(m)
    ensures var r := Tick(m, cycles); var reached := m.timer.divider + cycles >= 256;
      && r.timer.divider == (if reached then 0 else m.timer.divider + cycles)
      && r.mem[0xFF04] == (if reached then m.mem[0xFF04] + 1 else m.mem[0xFF04])
  {
    CountKeepsDivider(m, cycles);
  }

  /** DoTimers touches only the timer state and the bytes DIV, TIMA and
      IF; the TAC period is never changed by it. */
  lemma TickFrame(m: Machine, cycles: int)
    requires Valid(m)
    ensures var r := Tick(m, cycles);
      && r == m.(mem := r.mem, timer := r.timer) && r.timer.clockSpeed == m.timer.clockSpeed
      && forall k :: 0 <= k < MemorySize && k != 0xFF04 && k != 0xFF05 && k != 0xFF0F ==> r.mem[k] == m.mem[k]
  {
    DividerStepFrame(Count(m, cycles));
  }

  /** A call with a non-negative cycle count keeps the accumulator
      invariant. */
  lemma TickKeepsInvariant(m: Machine, cycles: int)
    requires Valid(m) && TimerInvariant(m) && cycles >= 0
    ensures TimerInvariant(Tick(m, cycles))
  {
    DividerStepFrame(Count(m, cycles));
    CountKeepsDivider(m, cycles);
  }

  /** A write through WriteByte keeps the accumulator invariant: a TAC write
      that changes the period also restarts the accumulator, and a DIV
      write clears the divider accumulator. */
  lemma WriteKeepsTimerInvariant(m: Machine, a: Word, v: bv8)
    requires Valid(m) && WriteDefined(m, a, v) && TimerInvariant(m)
    ensures TimerInvariant(Write(m, a, v))
  {
    if m.bootMode && a == 0xFF50 {
      ResetRegisters(m.(bootMode := false));
      StoreKeepsTimerInvariant(Reset(m.(bootMode := false)), a, v);
    } else {
      StoreKeepsTimerInvariant(m, a, v);
    }
  }

  lemma StoreKeepsTimerInvariant(m: Machine, a: Word, v: bv8)
    requires Valid(m) && WriteDefined(m, a, v) && TimerInvariant(m)
    ensures TimerInvariant(Store(m, a, v))
  {
    if a == 0xFF07 {
      TimerControlWrite(m, v);
    } else if a == 0xFF04 {
      DividerWriteResets(m, v);
    } else {
      assert Store(m, a, v).timer == m.timer;
    }
  }
}
