/**
 * The timer module of src/timer.c: the clamped cycle difference of a pair of
 * time-stamp readings, and the module state that `timer_init` and
 * `timer_finalize` switch between. The readings themselves (RDTSC, RDTSCP,
 * CPUID) and the clock calibration are inputs of the model.
 */
module Timer {

  import opened Bits

  /** `uint64_t` */
  type UInt64 = x: int | 0 <= x < U64

  /** `a - b` on `uint64_t`, wrapping around. */
  function Sub(a: UInt64, b: UInt64): UInt64
  {
    (a - b) % U64
  }

  /**
   * _timer_printCycles: `stop - start - baseline` on unsigned 64-bit values,
   * clamped to 0 when the readings are equal or `stop - baseline` (with
   * wrap-around) is below `start`.
   */
  function Cycles(start: UInt64, stop: UInt64, baseline: UInt64): UInt64
  {
    if Sub(stop, baseline) < start || start == stop then 0 else Sub(Sub(stop, start), baseline)
  }

  /** `x - y` on naturals, clamped at 0. */
  function Monus(x: int, y: int): nat
  {
    if x >= y then x - y else 0
  }

  /** Two readings that are equal give no cycles. */
  lemma CyclesEqual(t: UInt64, baseline: UInt64)
    ensures Cycles(t, t, baseline) == 0
  {
  }

  /**
   * While the baseline does not exceed the stop reading, the result is the
   * elapsed cycles minus the baseline, or 0 when that would be negative.
   */
  lemma CyclesClamp(start: UInt64, stop: UInt64, baseline: UInt64)
    requires baseline <= stop
    ensures Cycles(start, stop, baseline) == Monus(stop - start, baseline)
  {
    assert Sub(stop, baseline) == stop - baseline;
    if !(Sub(stop, baseline) < start) && start != stop {
      assert Sub(stop, start) == stop - start;
      assert Sub(Sub(stop, start), baseline) == stop - start - baseline;
    }
  }

  /**
   * A baseline above the stop reading makes `stop - baseline` wrap to
   * `2^64 + stop - baseline`: the clamp then holds back only equal readings
   * and start readings above that, and every other pair gets the wrapped
   * difference.
   */
  lemma CyclesWrap(start: UInt64, stop: UInt64, baseline: UInt64)
    requires stop < baseline
    ensures Cycles(start, stop, baseline)
         == if start == stop || start > U64 + stop - baseline then 0 else Sub(Sub(stop, start), baseline)
  {
    assert Sub(stop, baseline) == U64 + stop - baseline;
  }

  /** After a `timer_reset` and a `timer_start` only, the stop reading is 0 and the result is close to 2^64. */
  lemma CyclesWrapAfterReset(start: UInt64, baseline: UInt64)
    requires 0 < start && 0 < baseline && start + baseline < U64
    ensures Cycles(start, 0, baseline) == U64 - start - baseline
  {
    CyclesWrap(start, 0, baseline);
    assert Sub(0, start) == U64 - start;
  }

  /** The result never exceeds the elapsed cycles. */
  lemma CyclesBound(start: UInt64, stop: UInt64, baseline: UInt64)
    requires baseline <= stop && start <= stop
    ensures Cycles(start, stop, baseline) <= stop - start
  {
    CyclesClamp(start, stop, baseline);
  }

  /**
   * TSTART and TSTOP: no reader yet, or the reader the function pointer names:
   * fRDTSC (CPUID then RDTSC, serialised), fRDTSC_CR (plain RDTSC) or fRDTSCP.
   */
  datatype Reader = NoReader | Rdtsc | RdtscCr | Rdtscp

  /** `timer_initialized`, `baseline`, `cpuClock`, `TSTART`, `TSTOP` */
  datatype TimerState = TimerState(initialized: bool, baseline: UInt64, cpuClock: UInt64, tstart: Reader, tstop: Reader)

  /** The state of the module before its first `timer_init` and after `timer_finalize`. */
  const Fresh: TimerState := TimerState(false, 0, 0, NoReader, NoReader)

  /**
   * timer_init: `edx` is what CPUID leaf 0x80000001 reports (bit 27 is
   * RDTSCP), `clock` and `calibrated` are the clock and the baseline that
   * getCpuSpeed measures. An initialised module is left alone, readers
   * already chosen are kept, and a known clock is not measured again.
   */
  function InitSpec(s: TimerState, edx: bv32, clock: UInt64, calibrated: UInt64): TimerState
  {
    if s.initialized then s
    else
      var s1 := if s.tstart == NoReader && s.tstop == NoReader
                then s.(tstart := Rdtsc, tstop := if edx & (1 << 27) != 0 then Rdtscp else RdtscCr)
                else s;
      var s2 := if s1.cpuClock == 0 then s1.(cpuClock := clock, baseline := calibrated) else s1;
      s2.(initialized := true)
  }

  /** timer_finalize: an initialised module goes back to `Fresh`; otherwise nothing changes. */
  function FinalizeSpec(s: TimerState): TimerState
  {
    if !s.initialized then s else Fresh
  }

  /** A second timer_init returns at once, whatever the CPU reports this time. */
  lemma InitIdempotent(s: TimerState, edx: bv32, clock: UInt64, calibrated: UInt64, edx': bv32, clock': UInt64, calibrated': UInt64)
    ensures InitSpec(InitSpec(s, edx, clock, calibrated), edx', clock', calibrated') == InitSpec(s, edx, clock, calibrated)
  {
  }

  /**
   * Init from the fresh state starts with the CPUID-serialised RDTSC (fRDTSC),
   * stops with RDTSCP when CPUID reports it and with plain RDTSC (fRDTSC_CR)
   * otherwise, and takes the measured clock and baseline.
   */
  lemma InitFresh(edx: bv32, clock: UInt64, calibrated: UInt64)
    ensures var s := InitSpec(Fresh, edx, clock, calibrated);
      && s.initialized && s.tstart == Rdtsc
      && s.tstop == (if edx & (1 << 27) != 0 then Rdtscp else RdtscCr)
      && s.cpuClock == clock && s.baseline == calibrated
  {
  }

  /** Finalize undoes init: whatever the state, init then finalize ends in `Fresh`. */
  lemma FinalizeAfterInit(s: TimerState, edx: bv32, clock: UInt64, calibrated: UInt64)
    ensures FinalizeSpec(InitSpec(s, edx, clock, calibrated)) == Fresh
  {
  }

  /** `TimerData`: the start and stop readings of one measurement. */
  class TimerData {
    var start: UInt64
    var stop: UInt64

    constructor ()
      ensures start == 0 && stop == 0
    {
      start, stop := 0, 0;
    }

    /** timer_reset */
    method Reset()
      modifies this
      ensures start == 0 && stop == 0
    {
      start := 0;
      stop := 0;
    }
  }

  /** The module globals of src/timer.c. */
  class TimerModule {
    var initialized: bool
    var baseline: UInt64
    var cpuClock: UInt64
    var tstart: Reader
    var tstop: Reader

    function State(): TimerState
      reads this
    {
      TimerState(initialized, baseline, cpuClock, tstart, tstop)
    }

    constructor ()
      ensures State() == Fresh
    {
      initialized, baseline, cpuClock, tstart, tstop := false, 0, 0, NoReader, NoReader;
    }

    /** timer_init */
    method Init(edx: bv32, clock: UInt64, calibrated: UInt64)
      modifies this
      ensures State() == InitSpec(old(State()), edx, clock, calibrated)
    {
      if initialized {
        return;
      }
      if tstart == NoReader && tstop == NoReader {
        tstart := Rdtsc;
        if edx & (1 << 27) != 0 {
          tstop := Rdtscp;
        } else {
          tstop := RdtscCr;
        }
      }
      if cpuClock == 0 {
        baseline := calibrated;
        cpuClock := clock;
      }
      initialized := true;
    }

    /** timer_finalize */
    method Finalize()
      modifies this
      ensures State() == FinalizeSpec(old(State()))
    {
      if !initialized {
        return;
      }
      baseline := 0;
      cpuClock := 0;
      tstart := NoReader;
      tstop := NoReader;
      initialized := false;
    }

    /** timer_printCycles: 0 while the module is not initialised. */
    method PrintCycles(t: TimerData) returns (r: UInt64)
      ensures r == if initialized then Cycles(t.start, t.stop, baseline) else 0
    {
      if !initialized {
        return 0;
      }
      r := Cycles(t.start, t.stop, baseline);
    }

    /** timer_getCpuClock */
    method GetCpuClock() returns (r: UInt64)
      ensures r == if initialized then cpuClock else 0
    {
      if !initialized {
        return 0;
      }
      r := cpuClock;
    }

    /** timer_getBaseline */
    method GetBaseline() returns (r: UInt64)
      ensures r == if initialized then baseline else 0
    {
      if !initialized {
        return 0;
      }
      r := baseline;
    }

    /** timer_start: `tsc` is what the start reader returns; nothing happens without one or before init. */
    method Start(t: TimerData, tsc: UInt64)
      modifies t
      ensures t.start == (if initialized && tstart != NoReader then tsc else old(t.start))
      ensures t.stop == old(t.stop)
    {
      if !initialized {
        return;
      }
      if tstart != NoReader {
        t.start := tsc;
      }
    }

    /** timer_stop */
    method Stop(t: TimerData, tsc: UInt64)
      modifies t
      ensures t.stop == (if initialized && tstop != NoReader then tsc else old(t.stop))
      ensures t.start == old(t.start)
    {
      if !initialized {
        return;
      }
      if tstop != NoReader {
        t.stop := tsc;
      }
    }
  }
}
