/**
 * The per-thread lifecycle of a Broadwell event set as pure functions over
 * the engine state and one thread's column of counter records: init, setup,
 * start, stop, read and finalize, plus the uncore read and the core overflow
 * check they share. Each phase is a prefix fold over the event set; a failed
 * register access (CHECK_*_ERROR) ends the phase with the state reached so
 * far. The `Backend.Broadwell` class implements every function here with loops.
 */
module Lifecycle {

  import opened Bits
  import opened PerfmonTypes
  import opened Transport
  import opened Encoders

  /** What a phase carries through its loop: failure flag, engine state, the thread's counters, one accumulated word. */
  datatype Acc = Acc(ok: bool, ctx: Ctx, tcs: seq<ThreadCounter>, word: bv64)

  /** What a phase hands back: its return code, the engine state and the thread's counters. */
  datatype Outcome = Outcome(status: Status, ctx: Ctx, tcs: seq<ThreadCounter>)

  function OkStatus(ok: bool): Status
  {
    if ok then Ok else AccessError
  }

  /** The phases index `counter_map` with every entry's slot and run on a CPU the lookup tables know. */
  predicate PhaseArgs(p: Platform, cpu: nat, es: seq<EventEntry>, tcs: seq<ThreadCounter>)
  {
    KnownCpu(p, cpu) && EntriesMapped(p, es) && |tcs| == |es|
  }

  function Msr(cpu: nat, r: Reg): RegKey
  {
    RegKey(cpu, MsrDev, r)
  }

  /** BDW_FREEZE_UNCORE */
  function FreezeUncore(cpu: nat, owner: bool, mask: set<RegisterType>): seq<Access>
  {
    if owner && HasUncore(mask) then [Access(Msr(cpu, UncoreGlobalCtl), Bit(31))] else []
  }

  /** BDW_UNFREEZE_UNCORE */
  function UnfreezeUncore(cpu: nat, owner: bool, mask: set<RegisterType>): seq<Access>
  {
    if owner && HasUncore(mask) then [Access(Msr(cpu, UncoreGlobalCtl), Bit(29))] else []
  }

  // ------------------------------------------------------------------ init

  /** lock_acquire: the first CPU to ask for a domain becomes its owner for good. */
  function Acquire(lock: map<nat, nat>, domain: nat, cpu: nat): map<nat, nat>
  {
    if domain in lock then lock else lock[domain := cpu]
  }

  /** perfmon_init_broadwell */
  function InitSpec(p: Platform, c: Ctx, cpu: nat): (r: Ran)
    requires KnownCpu(p, cpu)
  {
    var c1 := c.(tileLock := Acquire(c.tileLock, p.tileOf[cpu], cpu),
                 socketLock := Acquire(c.socketLock, p.socketOf[cpu], cpu));
    var w := Write(p, c1, Msr(cpu, PebsEnable), 0);
    Ran(OkStatus(w.ok), w.ctx)
  }

  // ----------------------------------------------------------------- setup

  /** The encoder plan of one entry (the FIXED and UBOXFIX cases are handled in `SetupEntry`). */
  function EncoderPlan(p: Platform, c: Ctx, cpu: nat, owner: bool, e: EventEntry): Plan
    requires e.index in p.counterMap
  {
    var cm := p.counterMap[e.index];
    var cached := Cached(c, cpu, e.index);
    var present := DevicePresent(p, cm.device, cpu);
    match e.regType
    case Pmc => PmcPlan(cpu, cm, e.event, cached)
    case Ubox => UboxPlan(owner, cpu, cm, e.event, cached)
    case Cbox(_) => CboxPlan(owner, cpu, cm, Box(p, cm.regType), e.event, cached)
    case Wbox => WboxPlan(owner, cpu, cm, Box(p, cm.regType), e.event, cached)
    case Bbox(_) => BboxPlan(owner, present, cpu, cm, e.event, cached)
    case Mbox(_) => TwoPhaseBoxPlan(owner, present, cpu, cm, e.event, cached)
    case Ibox(_) => TwoPhaseBoxPlan(owner, present, cpu, cm, e.event, cached)
    case Pbox => TwoPhaseBoxPlan(owner, present, cpu, cm, e.event, cached)
    case MboxFix(_) => MboxFixPlan(owner, present, cpu, cm, e.event, cached)
    case _ => Skip(Ok)
  }

  /** The header of setup: freeze the uncore, then stop and reset the core counters. */
  function SetupHead(cpu: nat, owner: bool, mask: set<RegisterType>): seq<Access>
  {
    FreezeUncore(cpu, owner, mask)
    + (if HasCoreCounters(mask)
       then [Access(Msr(cpu, PerfGlobalCtrl), 0),
             Access(Msr(cpu, PerfGlobalOvfCtrl), 0xC000_0007_0000_000F),
             Access(Msr(cpu, PebsEnable), 0)]
       else [])
  }

  /**
   * One iteration of setup's loop. An encoder's own return code is ignored by
   * setup; only the UBOXFIX write ends the whole phase when it fails. FIXED
   * words are cached here and ORed into `word` when they changed.
   */
  function SetupEntry(p: Platform, a: Acc, cpu: nat, owner: bool, mask: set<RegisterType>, e: EventEntry, i: nat): (r: Acc)
    requires e.index in p.counterMap && i < |a.tcs|
    ensures |r.tcs| == |a.tcs|
    ensures forall j | 0 <= j < |a.tcs| && j != i :: r.tcs[j] == a.tcs[j]
  {
    if e.regType !in mask then a
    else
      var tcs := a.tcs[i := a.tcs[i].(init := true)];
      var cm := p.counterMap[e.index];
      if e.regType == Fixed then
        var w := FixedWord(e.index, e.event.options);
        if w != Cached(a.ctx, cpu, e.index)
        then Acc(true, a.ctx.(config := a.ctx.config[(cpu, e.index) := w]), tcs, a.word | w)
        else Acc(true, a.ctx, tcs, a.word)
      else if e.regType == UboxFix then
        if owner then
          var w := Write(p, a.ctx, Msr(cpu, Addr(cm.configRegister)), UboxFixWord);
          Acc(w.ok, w.ctx, tcs, a.word)
        else Acc(true, a.ctx, tcs, a.word)
      else
        var r := RunPlan(p, a.ctx, cpu, e.index, EncoderPlan(p, a.ctx, cpu, owner, e));
        Acc(true, r.ctx, tcs, a.word)
  }

  function SetupLoop(p: Platform, a: Acc, cpu: nat, owner: bool, mask: set<RegisterType>, es: seq<EventEntry>, n: nat): (r: Acc)
    requires n <= |es| == |a.tcs| && EntriesMapped(p, es)
    ensures |r.tcs| == |a.tcs|
    ensures forall j | n <= j < |a.tcs| :: r.tcs[j] == a.tcs[j]
  {
    if n == 0 then a
    else
      var b := SetupLoop(p, a, cpu, owner, mask, es, n - 1);
      if !b.ok then b else SetupEntry(p, b, cpu, owner, mask, es[n - 1], n - 1)
  }

  /** perfmon_setupCounterThread_broadwell */
  function SetupSpec(p: Platform, c: Ctx, cpu: nat, mask: set<RegisterType>, es: seq<EventEntry>, tcs: seq<ThreadCounter>): (r: Outcome)
    requires PhaseArgs(p, cpu, es, tcs)
  {
    var owner := HasSocketLock(p, c, cpu);
    var h := Writes(p, c, SetupHead(cpu, owner, mask));
    if !h.ok then Outcome(AccessError, h.ctx, tcs)
    else
      var a := SetupLoop(p, Acc(true, h.ctx, tcs, 0), cpu, owner, mask, es, |es|);
      if !a.ok then Outcome(AccessError, a.ctx, a.tcs)
      else if a.word != 0 then
        var w := Write(p, a.ctx, Msr(cpu, FixedCtrCtrl), a.word);
        Outcome(OkStatus(w.ok), w.ctx, a.tcs)
      else Outcome(Ok, a.ctx, a.tcs)
  }

  // ----------------------------------------------------------------- start

  /** The enable bit of a core counter: `index - perf_num_fixed_ctr` for PMC, `index + 32` for FIXED. */
  function EnableBit(p: Platform, e: EventEntry): bv64
  {
    if e.regType == Pmc then Bit(e.index - p.numFixed)
    else if e.regType == Fixed then Bit(e.index + 32)
    else 0
  }

  /** power_read: the low 32 bits of the energy-status register. */
  function PowerKey(cpu: nat, cm: CounterMapEntry): RegKey
  {
    Msr(cpu, Addr(cm.counterRegister))
  }

  /** The enable bit one entry contributes to start's mask: none unless it is an initialised PMC or FIXED entry of a type in the mask. */
  function EntryEnable(p: Platform, e: EventEntry, t: ThreadCounter, mask: set<RegisterType>): bv64
  {
    if t.init && e.regType in mask then EnableBit(p, e) else 0
  }

  /** The enable mask of the first `n` entries, from their records before start. */
  function EnableMask(p: Platform, es: seq<EventEntry>, tcs: seq<ThreadCounter>, mask: set<RegisterType>, n: nat): bv64
    requires n <= |es| == |tcs|
  {
    if n == 0 then 0 else EnableMask(p, es, tcs, mask, n - 1) | EntryEnable(p, es[n - 1], tcs[n - 1], mask)
  }

  /**
   * One iteration of start's loop. The enable bits the loop ORs together
   * depend only on the records as they were before it, so the model gathers
   * them separately, in `EnableMask`.
   */
  function StartEntry(p: Platform, a: Acc, cpu: nat, owner: bool, mask: set<RegisterType>, e: EventEntry, i: nat): (r: Acc)
    requires e.index in p.counterMap && i < |a.tcs|
    ensures |r.tcs| == |a.tcs|
    ensures forall j | 0 <= j < |a.tcs| && j != i :: r.tcs[j] == a.tcs[j]
  {
    if !a.tcs[i].init || e.regType !in mask then a
    else
      var cm := p.counterMap[e.index];
      var tc := a.tcs[i].(startData := 0, counterData := 0, fullData := 0);
      var k := RegKey(cpu, cm.device, Addr(cm.counterRegister));
      if e.regType == Pmc || e.regType == Fixed then
        var w := Write(p, a.ctx, k, 0);
        Acc(w.ok, w.ctx, a.tcs[i := tc], a.word)
      else if e.regType == Power && owner then
        if !Readable(p, PowerKey(cpu, cm)) then Acc(false, a.ctx, a.tcs[i := tc], a.word)
        else
          var v := LowBits(Get(a.ctx.regs, PowerKey(cpu, cm)), 32);
          Acc(true, a.ctx, a.tcs[i := tc.(startData := LowBits(v, Box(p, Power).regWidth))], a.word)
      else if e.regType == Wbox0Fix && owner then
        if !Readable(p, k) then Acc(false, a.ctx, a.tcs[i := tc], a.word)
        else
          var v := Get(a.ctx.regs, k);
          Acc(true, a.ctx, a.tcs[i := tc.(startData := LowBits(v, Box(p, Wbox0Fix).regWidth))], a.word)
      else Acc(true, a.ctx, a.tcs[i := tc], a.word)
  }

  function StartLoop(p: Platform, a: Acc, cpu: nat, owner: bool, mask: set<RegisterType>, es: seq<EventEntry>, n: nat): (r: Acc)
    requires n <= |es| == |a.tcs| && EntriesMapped(p, es)
    ensures |r.tcs| == |a.tcs|
    ensures forall j | n <= j < |a.tcs| :: r.tcs[j] == a.tcs[j]
  {
    if n == 0 then a
    else
      var b := StartLoop(p, a, cpu, owner, mask, es, n - 1);
      if !b.ok then b else StartEntry(p, b, cpu, owner, mask, es[n - 1], n - 1)
  }

  /** The counter clears of BDW_UNFREEZE_UNCORE_AND_RESET_CTR for one uncore entry whose device is present. */
  function ResetEntry(p: Platform, cpu: nat, e: EventEntry): seq<Access>
    requires e.index in p.counterMap
  {
    var cm := p.counterMap[e.index];
    if IsCoreType(cm.regType) || cm.regType == Wbox0Fix || !DevicePresent(p, cm.device, cpu) then []
    else [Access(RegKey(cpu, cm.device, Addr(cm.counterRegister)), 0)]
         + (if cm.counterRegister2 != 0 then [Access(RegKey(cpu, cm.device, Addr(cm.counterRegister2)), 0)] else [])
  }

  /** The counter clears of BDW_UNFREEZE_UNCORE_AND_RESET_CTR, for every entry of the set. */
  function ResetCounters(p: Platform, cpu: nat, es: seq<EventEntry>): seq<Access>
    requires EntriesMapped(p, es)
    decreases |es|
  {
    if es == [] then [] else ResetCounters(p, cpu, es[..|es| - 1]) + ResetEntry(p, cpu, es[|es| - 1])
  }

  /** BDW_UNFREEZE_UNCORE_AND_RESET_CTR */
  function UnfreezeAndReset(p: Platform, cpu: nat, owner: bool, mask: set<RegisterType>, es: seq<EventEntry>): seq<Access>
    requires EntriesMapped(p, es)
  {
    if owner && HasUncore(mask) then ResetCounters(p, cpu, es) + [Access(Msr(cpu, UncoreGlobalCtl), Bit(29))] else []
  }

  /** Clear the overflow state of the enabled core counters, then enable them. */
  function StartCore(cpu: nat, mask: set<RegisterType>, enable: bv64): seq<Access>
  {
    if HasCoreCounters(mask)
    then [Access(Msr(cpu, PerfGlobalOvfCtrl), Bit(63) | Bit(62) | enable), Access(Msr(cpu, PerfGlobalCtrl), enable)]
    else []
  }

  /** perfmon_startCountersThread_broadwell */
  function StartSpec(p: Platform, c: Ctx, cpu: nat, mask: set<RegisterType>, es: seq<EventEntry>, tcs: seq<ThreadCounter>): (r: Outcome)
    requires PhaseArgs(p, cpu, es, tcs)
  {
    var owner := HasSocketLock(p, c, cpu);
    var a := StartLoop(p, Acc(true, c, tcs, 0), cpu, owner, mask, es, |es|);
    if !a.ok then Outcome(AccessError, a.ctx, a.tcs)
    else
      var u := Writes(p, a.ctx, UnfreezeAndReset(p, cpu, owner, mask, es));
      if !u.ok then Outcome(AccessError, u.ctx, a.tcs)
      else
        var g := Writes(p, u.ctx, StartCore(cpu, mask, EnableMask(p, es, tcs, mask, |es|)));
        Outcome(OkStatus(g.ok), g.ctx, a.tcs)
  }

  // ------------------------------------------------------- counter reading

  /** A counter sample in flight: failure flag, engine state, the entry's record, `counter_result`. */
  datatype Sample = Sample(ok: bool, ctx: Ctx, tc: ThreadCounter, value: bv64)

  /** Read a PMC or FIXED counter and run BDW_CHECK_CORE_OVERFLOW(offset) on it. */
  function CoreRead(p: Platform, c: Ctx, cpu: nat, cm: CounterMapEntry, tc: ThreadCounter, offset: int): (r: Sample)
    ensures r.tc == tc.(overflows := r.tc.overflows)
  {
    var k := Msr(cpu, Addr(cm.counterRegister));
    if !Readable(p, k) then Sample(false, c, tc, 0)
    else
      var v := Get(c.regs, k);
      if Below(v, tc.counterData) then
        var ks := Msr(cpu, PerfGlobalStatus);
        if !Readable(p, ks) then Sample(false, c, tc, v)
        else
          var tc' := if IsSet(Get(c.regs, ks), offset) then tc.(overflows := tc.overflows + 1) else tc;
          var w := Write(p, c, Msr(cpu, PerfGlobalOvfCtrl), Bit(offset));
          Sample(w.ok, w.ctx, tc', v)
      else Sample(true, c, tc, v)
  }

  /** Read a POWER counter; a smaller value than last time counts as one overflow. */
  function PowerRead(p: Platform, c: Ctx, cpu: nat, cm: CounterMapEntry, tc: ThreadCounter): (r: Sample)
    ensures r.tc == tc.(overflows := r.tc.overflows)
  {
    var k := PowerKey(cpu, cm);
    if !Readable(p, k) then Sample(false, c, tc, 0)
    else
      var v := LowBits(Get(c.regs, k), 32);
      Sample(true, c, if Below(v, tc.counterData) then tc.(overflows := tc.overflows + 1) else tc, v)
  }

  /** thermal_read: the low 32 bits of the thermal-status register. */
  function ThermalRead(p: Platform, c: Ctx, cpu: nat, tc: ThreadCounter): (r: Sample)
    ensures r.tc == tc
  {
    var k := Msr(cpu, ThermalSensor);
    if !Readable(p, k) then Sample(false, c, tc, 0) else Sample(true, c, tc, LowBits(Get(c.regs, k), 32))
  }

  /** The result of bdw_uncore_read: return code, engine state, `*cur_result` and `*overflows`. */
  datatype UncoreResult = UncoreResult(status: Status, ctx: Ctx, cur: bv64, overflows: nat)

  /** The raw counter value of an uncore read, with the optional clear of each half. */
  datatype Raw = Raw(ok: bool, ctx: Ctx, value: bv64)

  /** `(counter1 << 32) + counter2`: the two halves of a split counter, in 64-bit arithmetic. */
  function Join(hi: bv64, lo: bv64): bv64
  {
    (hi << 32) + lo
  }

  function UncoreRaw(p: Platform, c: Ctx, cpu: nat, cm: CounterMapEntry, clear: bool): (r: Raw)
  {
    var k1 := RegKey(cpu, cm.device, Addr(cm.counterRegister));
    if !Readable(p, k1) then Raw(false, c, 0)
    else
      var v1 := Get(c.regs, k1);
      var w1 := if clear then Write(p, c, k1, 0) else Exec(true, c);
      if !w1.ok then Raw(false, w1.ctx, 0)
      else if cm.counterRegister2 == 0 then Raw(true, w1.ctx, v1)
      else
        var k2 := RegKey(cpu, cm.device, Addr(cm.counterRegister2));
        if !Readable(p, k2) then Raw(false, w1.ctx, 0)
        else
          var v := Join(v1, Get(w1.ctx.regs, k2));
          var w2 := if clear then Write(p, w1.ctx, k2, 0) else Exec(true, w1.ctx);
          Raw(w2.ok, w2.ctx, v)
  }

  /** The global uncore status test: whether the box status is to be looked at. */
  datatype Probe = Probe(ok: bool, ctx: Ctx, testLocal: bool)

  function GlobalProbe(p: Platform, c: Ctx, cpu: nat, box: BoxEntry): (r: Probe)
  {
    if box.ovflOffset == -1 then Probe(true, c, true)
    else
      var ks := Msr(cpu, UncoreGlobalStatus);
      if !Readable(p, ks) then Probe(false, c, false)
      else if Meets(Get(c.regs, ks), IntBit(box.ovflOffset)) then
        var w := Write(p, c, ks, IntBit(box.ovflOffset));
        Probe(w.ok, w.ctx, true)
      else Probe(true, c, false)
  }

  /** The box status test: one more overflow when the box's bit is set, and its clear. */
  function BoxProbe(p: Platform, c: Ctx, cpu: nat, cm: CounterMapEntry, box: BoxEntry, boxOffset: int, overflows: nat): (r: UncoreResult)
  {
    var kb := RegKey(cpu, cm.device, Addr(box.statusRegister));
    if !Readable(p, kb) then UncoreResult(AccessError, c, 0, overflows)
    else if Meets(Get(c.regs, kb), IntBit(boxOffset)) then
      var w := Write(p, c, kb, IntBit(boxOffset));
      UncoreResult(OkStatus(w.ok), w.ctx, 0, overflows + 1)
    else UncoreResult(Ok, c, 0, overflows)
  }

  /**
   * bdw_uncore_read: a non-owner returns at once; otherwise the counter is
   * read (and cleared when `clear`), masked to the box's width, and a value
   * below `cur` is checked against the global and box overflow status. On a
   * failed access the function returns early and `cur` is left alone.
   */
  function UncoreRead(p: Platform, c: Ctx, cpu: nat, owner: bool, cm: CounterMapEntry,
                      cur: bv64, overflows: nat, clear: bool, boxOffset: int): (r: UncoreResult)
  {
    if !owner then UncoreResult(Ok, c, cur, overflows)
    else
      var box := Box(p, cm.regType);
      var raw := UncoreRaw(p, c, cpu, cm, clear);
      if !raw.ok then UncoreResult(AccessError, raw.ctx, cur, overflows)
      else
        var result := LowBits(raw.value, box.regWidth);
        if Below(result, cur) then
          var g := GlobalProbe(p, raw.ctx, cpu, box);
          if !g.ok then UncoreResult(AccessError, g.ctx, cur, overflows)
          else if !g.testLocal then UncoreResult(Ok, g.ctx, result, overflows)
          else
            var b := BoxProbe(p, g.ctx, cpu, cm, box, boxOffset, overflows);
            if b.status == AccessError then UncoreResult(AccessError, b.ctx, cur, b.overflows)
            else UncoreResult(Ok, b.ctx, result, b.overflows)
        else UncoreResult(Ok, raw.ctx, result, overflows)
  }

  /** The box-local overflow bit stop and read pass to bdw_uncore_read, or -1 for the types they do not read. */
  function BoxOffset(t: RegisterType, typeOffset: nat): int
  {
    match t
    case Bbox(_) => typeOffset
    case Mbox(_) => typeOffset + 1
    case MboxFix(_) => 0
    case Ibox(b) => if b == 1 then typeOffset + 2 else typeOffset
    case Pbox => typeOffset
    case Wbox => typeOffset
    case Ubox => typeOffset
    case UboxFix => typeOffset
    case Cbox(_) => typeOffset
    case _ => -1
  }

  predicate ReadsUncore(t: RegisterType)
  {
    t.Bbox? || t.Mbox? || t.MboxFix? || t.Ibox? || t.Pbox? || t.Wbox? || t.Ubox? || t.UboxFix? || t.Cbox?
  }

  /** Store `counter_result`, masked to the type's width, as the new `counterData`. */
  function Finish(s: Sample, width: nat): Sample
  {
    if s.ok then s.(tc := s.tc.(counterData := LowBits(s.value, width))) else s
  }

  /**
   * The body of stop's and read's loop for one entry that is initialised and
   * in the type mask. `counter_result` stays 0 for the uncore types, whose
   * read only updates `counterData` in passing and whose return code is
   * ignored, so they end with `counterData == 0`.
   */
  function ReadEntry(p: Platform, c: Ctx, cpu: nat, owner: bool, e: EventEntry, tc: ThreadCounter, clear: bool): (r: Sample)
    requires e.index in p.counterMap
    ensures r.tc.init == tc.init
  {
    Finish(ReadSample(p, c, cpu, owner, e, tc, clear), Box(p, e.regType).regWidth)
  }

  /** The switch of stop's and read's loop, before `counter_result` is stored. */
  function ReadSample(p: Platform, c: Ctx, cpu: nat, owner: bool, e: EventEntry, tc: ThreadCounter, clear: bool): (r: Sample)
    requires e.index in p.counterMap
    ensures r.tc.init == tc.init
  {
    var cm := p.counterMap[e.index];
    match e.regType
    case Pmc => CoreRead(p, c, cpu, cm, tc, e.index - p.numFixed)
    case Fixed => CoreRead(p, c, cpu, cm, tc, e.index + 32)
    case Power => if owner then PowerRead(p, c, cpu, cm, tc) else Sample(true, c, tc, 0)
    case Thermal => ThermalRead(p, c, cpu, tc)
    case _ =>
      if ReadsUncore(e.regType) then
        var u := UncoreRead(p, c, cpu, owner, cm, tc.counterData, tc.overflows, clear, BoxOffset(e.regType, cm.typeOffset));
        Sample(true, u.ctx, tc.(counterData := u.cur, overflows := u.overflows), 0)
      else Sample(true, c, tc, 0)
  }

  // ------------------------------------------------------------------ stop

  /** One iteration of stop's loop; an entry whose type is not in the mask keeps `init`. */
  function StopEntry(p: Platform, a: Acc, cpu: nat, owner: bool, mask: set<RegisterType>, e: EventEntry, i: nat): (r: Acc)
    requires e.index in p.counterMap && i < |a.tcs|
    ensures |r.tcs| == |a.tcs|
    ensures forall j | 0 <= j < |a.tcs| && j != i :: r.tcs[j] == a.tcs[j]
  {
    if !a.tcs[i].init || e.regType !in mask then a
    else
      var s := ReadEntry(p, a.ctx, cpu, owner, e, a.tcs[i], true);
      Acc(s.ok, s.ctx, a.tcs[i := if s.ok then s.tc.(init := false) else s.tc], a.word)
  }

  function StopLoop(p: Platform, a: Acc, cpu: nat, owner: bool, mask: set<RegisterType>, es: seq<EventEntry>, n: nat): (r: Acc)
    requires n <= |es| == |a.tcs| && EntriesMapped(p, es)
    ensures |r.tcs| == |a.tcs|
    ensures forall j | n <= j < |a.tcs| :: r.tcs[j] == a.tcs[j]
  {
    if n == 0 then a
    else
      var b := StopLoop(p, a, cpu, owner, mask, es, n - 1);
      if !b.ok then b else StopEntry(p, b, cpu, owner, mask, es[n - 1], n - 1)
  }

  function StopHead(cpu: nat, owner: bool, mask: set<RegisterType>): seq<Access>
  {
    (if HasCoreCounters(mask) then [Access(Msr(cpu, PerfGlobalCtrl), 0)] else [])
    + FreezeUncore(cpu, owner, mask)
  }

  /** perfmon_stopCountersThread_broadwell */
  function StopSpec(p: Platform, c: Ctx, cpu: nat, mask: set<RegisterType>, es: seq<EventEntry>, tcs: seq<ThreadCounter>): (r: Outcome)
    requires PhaseArgs(p, cpu, es, tcs)
  {
    var owner := HasSocketLock(p, c, cpu);
    var h := Writes(p, c, StopHead(cpu, owner, mask));
    if !h.ok then Outcome(AccessError, h.ctx, tcs)
    else
      var a := StopLoop(p, Acc(true, h.ctx, tcs, 0), cpu, owner, mask, es, |es|);
      Outcome(OkStatus(a.ok), a.ctx, a.tcs)
  }

  // ------------------------------------------------------------------ read

  /** One iteration of read's loop: as stop, without clearing and without touching `init`. */
  function ReadLoopEntry(p: Platform, a: Acc, cpu: nat, owner: bool, mask: set<RegisterType>, e: EventEntry, i: nat): (r: Acc)
    requires e.index in p.counterMap && i < |a.tcs|
    ensures |r.tcs| == |a.tcs|
    ensures forall j | 0 <= j < |a.tcs| && j != i :: r.tcs[j] == a.tcs[j]
  {
    if !a.tcs[i].init || e.regType !in mask then a
    else
      var s := ReadEntry(p, a.ctx, cpu, owner, e, a.tcs[i], false);
      Acc(s.ok, s.ctx, a.tcs[i := s.tc], a.word)
  }

  function ReadLoop(p: Platform, a: Acc, cpu: nat, owner: bool, mask: set<RegisterType>, es: seq<EventEntry>, n: nat): (r: Acc)
    requires n <= |es| == |a.tcs| && EntriesMapped(p, es)
    ensures |r.tcs| == |a.tcs|
    ensures forall j | n <= j < |a.tcs| :: r.tcs[j] == a.tcs[j]
  {
    if n == 0 then a
    else
      var b := ReadLoop(p, a, cpu, owner, mask, es, n - 1);
      if !b.ok then b else ReadLoopEntry(p, b, cpu, owner, mask, es[n - 1], n - 1)
  }

  /** perfmon_readCountersThread_broadwell: GLOBAL_CTRL is saved, zeroed while reading, and restored. */
  function ReadSpec(p: Platform, c: Ctx, cpu: nat, mask: set<RegisterType>, es: seq<EventEntry>, tcs: seq<ThreadCounter>): (r: Outcome)
    requires PhaseArgs(p, cpu, es, tcs)
  {
    var owner := HasSocketLock(p, c, cpu);
    var kg := Msr(cpu, PerfGlobalCtrl);
    if HasCoreCounters(mask) && !Readable(p, kg) then Outcome(AccessError, c, tcs)
    else
      var saved := if HasCoreCounters(mask) then Get(c.regs, kg) else 0;
      var h := Writes(p, c, (if HasCoreCounters(mask) then [Access(kg, 0)] else []) + FreezeUncore(cpu, owner, mask));
      if !h.ok then Outcome(AccessError, h.ctx, tcs)
      else
        var a := ReadLoop(p, Acc(true, h.ctx, tcs, 0), cpu, owner, mask, es, |es|);
        if !a.ok then Outcome(AccessError, a.ctx, a.tcs)
        else
          var t := Writes(p, a.ctx, UnfreezeUncore(cpu, owner, mask)
                                    + (if HasCoreCounters(mask) then [Access(kg, saved)] else []));
          Outcome(OkStatus(t.ok), t.ctx, a.tcs)
  }

  // -------------------------------------------------------------- finalize

  /** The off-core response clear the tile owner does for a PMC entry. */
  function OffcoreClear(cpu: nat, tileOwner: bool, e: EventEntry): seq<Access>
  {
    if e.regType == Pmc && tileOwner && e.event.eventId == 0xB7 then [Access(Msr(cpu, OffcoreResp0), 0)]
    else if e.regType == Pmc && tileOwner && e.event.eventId == 0xBB then [Access(Msr(cpu, OffcoreResp1), 0)]
    else []
  }

  /** Whether finalize reads and zeroes the entry's config register. */
  predicate ClearsConfig(owner: bool, cm: CounterMapEntry, t: RegisterType)
  {
    cm.configRegister != 0 && (t == Pmc || t == Fixed || (!IsCoreType(t) && owner))
  }

  /** The read and clear of the entry's config register, when finalize does them. */
  function ConfigClear(p: Platform, c: Ctx, cpu: nat, owner: bool, cm: CounterMapEntry, t: RegisterType): (r: Exec)
  {
    if !ClearsConfig(owner, cm, t) then Exec(true, c)
    else
      var k := RegKey(cpu, cm.device, Addr(cm.configRegister));
      if !Readable(p, k) then Exec(false, c) else Write(p, c, k, 0)
  }

  /** One iteration of finalize's loop; NOTYPE entries are skipped and keep `init`. */
  function FinalizeEntry(p: Platform, a: Acc, cpu: nat, owner: bool, tileOwner: bool, e: EventEntry, i: nat): (r: Acc)
    requires e.index in p.counterMap && i < |a.tcs|
    ensures |r.tcs| == |a.tcs|
    ensures forall j | 0 <= j < |a.tcs| && j != i :: r.tcs[j] == a.tcs[j]
  {
    if e.regType == NoType then a
    else
      var word := a.word | EnableBit(p, e);
      var o := Writes(p, a.ctx, OffcoreClear(cpu, tileOwner, e));
      if !o.ok then Acc(false, o.ctx, a.tcs, word)
      else
        var z := ConfigClear(p, o.ctx, cpu, owner, p.counterMap[e.index], e.regType);
        Acc(z.ok, z.ctx, if z.ok then a.tcs[i := a.tcs[i].(init := false)] else a.tcs, word)
  }

  function FinalizeLoop(p: Platform, a: Acc, cpu: nat, owner: bool, tileOwner: bool, es: seq<EventEntry>, n: nat): (r: Acc)
    requires n <= |es| == |a.tcs| && EntriesMapped(p, es)
    ensures |r.tcs| == |a.tcs|
    ensures forall j | n <= j < |a.tcs| :: r.tcs[j] == a.tcs[j]
  {
    if n == 0 then a
    else
      var b := FinalizeLoop(p, a, cpu, owner, tileOwner, es, n - 1);
      if !b.ok then b else FinalizeEntry(p, b, cpu, owner, tileOwner, es[n - 1], n - 1)
  }

  /** The closing writes of finalize: uncore status and control, then core overflow control and enable. */
  function FinalizeTail(cpu: nat, owner: bool, mask: set<RegisterType>, ovf: bv64): seq<Access>
  {
    (if owner && HasUncore(mask)
     then [Access(Msr(cpu, UncoreGlobalStatus), 0), Access(Msr(cpu, UncoreGlobalCtl), 0)]
     else [])
    + (if HasCoreCounters(mask)
       then [Access(Msr(cpu, PerfGlobalOvfCtrl), ovf), Access(Msr(cpu, PerfGlobalCtrl), 0)]
       else [])
  }

  /** perfmon_finalizeCountersThread_broadwell */
  function FinalizeSpec(p: Platform, c: Ctx, cpu: nat, mask: set<RegisterType>, es: seq<EventEntry>, tcs: seq<ThreadCounter>): (r: Outcome)
    requires PhaseArgs(p, cpu, es, tcs)
  {
    var owner := HasSocketLock(p, c, cpu);
    var tileOwner := HasTileLock(p, c, cpu);
    var a := FinalizeLoop(p, Acc(true, c, tcs, Bit(63) | Bit(62)), cpu, owner, tileOwner, es, |es|);
    if !a.ok then Outcome(AccessError, a.ctx, a.tcs)
    else
      var t := Writes(p, a.ctx, FinalizeTail(cpu, owner, mask, a.word));
      Outcome(OkStatus(t.ok), t.ctx, a.tcs)
  }
}
