/**
 * What the lifecycle promises: the overflow rules of the core and uncore
 * reads, who owns a socket after init, the counters start zeroes and the
 * enable mask it builds, the order of its closing writes, and which entries
 * setup, stop, read and finalize leave initialised.
 */
module LifecycleProps {

  import opened Bits
  import opened PerfmonTypes
  import opened Transport
  import opened Encoders
  import opened Lifecycle

  // ------------------------------------------------------------ core read

  /**
   * BDW_CHECK_CORE_OVERFLOW with working registers: the value read is the
   * counter; a value below the previous one counts one overflow exactly when
   * the counter's bit of the global status is set, and the overflow-control
   * bit is written whenever the value went down, set or not. A value that did
   * not go down leaves everything alone.
   */
  lemma CoreOverflowRule(p: Platform, c: Ctx, cpu: nat, cm: CounterMapEntry, tc: ThreadCounter, offset: int)
    requires Readable(p, Msr(cpu, Addr(cm.counterRegister))) && Readable(p, Msr(cpu, PerfGlobalStatus))
    requires Msr(cpu, PerfGlobalOvfCtrl) !in p.faulty
    ensures var r := CoreRead(p, c, cpu, cm, tc, offset);
      var v := Get(c.regs, Msr(cpu, Addr(cm.counterRegister)));
      && r.ok && r.value == v
      && (Below(v, tc.counterData) && IsSet(Get(c.regs, Msr(cpu, PerfGlobalStatus)), offset) ==> r.tc == tc.(overflows := tc.overflows + 1))
      && (!(Below(v, tc.counterData) && IsSet(Get(c.regs, Msr(cpu, PerfGlobalStatus)), offset)) ==> r.tc == tc)
      && (Below(v, tc.counterData) ==> r.ctx.log == c.log + [Access(Msr(cpu, PerfGlobalOvfCtrl), Bit(offset))])
      && (!Below(v, tc.counterData) ==> r.ctx == c)
  {
  }

  /** A failed counter read ends the check with `ok` false and the record unchanged. */
  lemma CoreReadFailure(p: Platform, c: Ctx, cpu: nat, cm: CounterMapEntry, tc: ThreadCounter, offset: int)
    requires !Readable(p, Msr(cpu, Addr(cm.counterRegister)))
    ensures var r := CoreRead(p, c, cpu, cm, tc, offset);
      !r.ok && r.tc == tc && r.ctx == c
  {
  }

  /**
   * A counter that went down with GLOBAL_STATUS unreadable: the check fails
   * before counting and before the OVF_CTRL write, so the record and the state
   * stay as they were, and the value read is still returned.
   */
  lemma CoreStatusReadFailure(p: Platform, c: Ctx, cpu: nat, cm: CounterMapEntry, tc: ThreadCounter, offset: int)
    requires Readable(p, Msr(cpu, Addr(cm.counterRegister)))
    requires Below(Get(c.regs, Msr(cpu, Addr(cm.counterRegister))), tc.counterData)
    requires !Readable(p, Msr(cpu, PerfGlobalStatus))
    ensures var r := CoreRead(p, c, cpu, cm, tc, offset);
      !r.ok && r.tc == tc && r.ctx == c && r.value == Get(c.regs, Msr(cpu, Addr(cm.counterRegister)))
  {
  }

  /**
   * The POWER rule: one overflow exactly when the 32-bit energy reading is
   * below the previous one; no status register is consulted or written.
   */
  lemma PowerOverflowRule(p: Platform, c: Ctx, cpu: nat, cm: CounterMapEntry, tc: ThreadCounter)
    requires Readable(p, PowerKey(cpu, cm))
    ensures var r := PowerRead(p, c, cpu, cm, tc);
      var v := LowBits(Get(c.regs, PowerKey(cpu, cm)), 32);
      && r.ok && r.value == v && r.ctx == c
      && (Below(v, tc.counterData) ==> r.tc == tc.(overflows := tc.overflows + 1))
      && (!Below(v, tc.counterData) ==> r.tc == tc)
  {
  }

  // ---------------------------------------------------------- uncore read

  /** A CPU that does not own the socket returns 0 and touches neither the registers nor the results. */
  lemma UncoreOwnerGate(p: Platform, c: Ctx, cpu: nat, cm: CounterMapEntry, cur: bv64, overflows: nat, clear: bool, boxOffset: int)
    ensures UncoreRead(p, c, cpu, false, cm, cur, overflows, clear, boxOffset) == UncoreResult(Ok, c, cur, overflows)
  {
  }

  function K1(cpu: nat, cm: CounterMapEntry): RegKey
  {
    RegKey(cpu, cm.device, Addr(cm.counterRegister))
  }

  function K2(cpu: nat, cm: CounterMapEntry): RegKey
  {
    RegKey(cpu, cm.device, Addr(cm.counterRegister2))
  }

  function KStatus(cpu: nat, cm: CounterMapEntry, box: BoxEntry): RegKey
  {
    RegKey(cpu, cm.device, Addr(box.statusRegister))
  }

  /** The raw counter as the registers hold it: one register, or the first as high half of two. */
  function RawCounter(regs: map<RegKey, bv64>, cpu: nat, cm: CounterMapEntry): bv64
  {
    if cm.counterRegister2 == 0 then Get(regs, K1(cpu, cm))
    else Join(Get(regs, K1(cpu, cm)), Get(regs, K2(cpu, cm)))
  }

  /** The box's registers are three different ones, so a clear of one half does not hide another. */
  predicate DistinctRegs(cm: CounterMapEntry, box: BoxEntry)
  {
    cm.counterRegister != cm.counterRegister2
    && box.statusRegister != cm.counterRegister && box.statusRegister != cm.counterRegister2
  }

  /** No register the uncore read may touch fails. */
  predicate UncoreWorks(p: Platform, cpu: nat, cm: CounterMapEntry, box: BoxEntry)
  {
    && K1(cpu, cm) !in p.faulty && K2(cpu, cm) !in p.faulty
    && KStatus(cpu, cm, box) !in p.faulty && Msr(cpu, UncoreGlobalStatus) !in p.faulty
  }

  /** The read succeeds and sees the raw counter as it was before the read. */
  lemma UncoreRawValue(p: Platform, c: Ctx, cpu: nat, cm: CounterMapEntry, clear: bool)
    requires UncoreWorks(p, cpu, cm, Box(p, cm.regType)) && DistinctRegs(cm, Box(p, cm.regType))
    ensures var raw := UncoreRaw(p, c, cpu, cm, clear);
      && raw.ok && raw.value == RawCounter(c.regs, cpu, cm)
      && Get(raw.ctx.regs, KStatus(cpu, cm, Box(p, cm.regType))) == Get(c.regs, KStatus(cpu, cm, Box(p, cm.regType)))
      && Get(raw.ctx.regs, Msr(cpu, UncoreGlobalStatus)) == Get(c.regs, Msr(cpu, UncoreGlobalStatus))
  {
    var box := Box(p, cm.regType);
    var w1 := if clear then Write(p, c, K1(cpu, cm), 0) else Exec(true, c);
    assert w1.ok;
    assert Get(w1.ctx.regs, K2(cpu, cm)) == Get(c.regs, K2(cpu, cm));
    assert Get(w1.ctx.regs, KStatus(cpu, cm, box)) == Get(c.regs, KStatus(cpu, cm, box));
    assert Get(w1.ctx.regs, Msr(cpu, UncoreGlobalStatus)) == Get(c.regs, Msr(cpu, UncoreGlobalStatus));
    if cm.counterRegister2 != 0 {
      var v := Join(Get(c.regs, K1(cpu, cm)), Get(w1.ctx.regs, K2(cpu, cm)));
      assert v == RawCounter(c.regs, cpu, cm);
      var w2 := if clear then Write(p, w1.ctx, K2(cpu, cm), 0) else Exec(true, w1.ctx);
      assert w2.ok;
      assert Get(w2.ctx.regs, KStatus(cpu, cm, box)) == Get(c.regs, KStatus(cpu, cm, box));
      assert Get(w2.ctx.regs, Msr(cpu, UncoreGlobalStatus)) == Get(c.regs, Msr(cpu, UncoreGlobalStatus));
    }
  }

  /** The global probe leaves the box status register as it found it. */
  lemma GlobalProbeKeepsBox(p: Platform, c: Ctx, cpu: nat, cm: CounterMapEntry, box: BoxEntry)
    requires UncoreWorks(p, cpu, cm, box)
    ensures var g := GlobalProbe(p, c, cpu, box);
      && g.ok
      && (g.testLocal <==> box.ovflOffset == -1 || Meets(Get(c.regs, Msr(cpu, UncoreGlobalStatus)), IntBit(box.ovflOffset)))
      && Get(g.ctx.regs, KStatus(cpu, cm, box)) == Get(c.regs, KStatus(cpu, cm, box))
  {
  }

  /** The overflow bits confirmed by the registers as they were before the read. */
  predicate UncoreOverflowed(c: Ctx, cpu: nat, cm: CounterMapEntry, box: BoxEntry, boxOffset: int)
  {
    && (box.ovflOffset != -1 ==> Meets(Get(c.regs, Msr(cpu, UncoreGlobalStatus)), IntBit(box.ovflOffset)))
    && Meets(Get(c.regs, KStatus(cpu, cm, box)), IntBit(boxOffset))
  }

  /**
   * bdw_uncore_read of an owner with working, distinct registers: the new
   * result is the raw counter masked to the box's width, and the overflow
   * count grows by one exactly when that result is below the previous one,
   * the global status bit is set (when the box has one) and the box status
   * bit is set; otherwise it stays as it was.
   */
  lemma UncoreOverflowRule(p: Platform, c: Ctx, cpu: nat, cm: CounterMapEntry, cur: bv64, overflows: nat, clear: bool, boxOffset: int)
    requires UncoreWorks(p, cpu, cm, Box(p, cm.regType)) && DistinctRegs(cm, Box(p, cm.regType))
    ensures var r := UncoreRead(p, c, cpu, true, cm, cur, overflows, clear, boxOffset);
      var box := Box(p, cm.regType);
      var result := LowBits(RawCounter(c.regs, cpu, cm), box.regWidth);
      && r.status == Ok && r.cur == result
      && (Below(result, cur) && UncoreOverflowed(c, cpu, cm, box, boxOffset) ==> r.overflows == overflows + 1)
      && (!(Below(result, cur) && UncoreOverflowed(c, cpu, cm, box, boxOffset)) ==> r.overflows == overflows)
  {
    var box := Box(p, cm.regType);
    var raw := UncoreRaw(p, c, cpu, cm, clear);
    UncoreRawValue(p, c, cpu, cm, clear);
    var result := LowBits(raw.value, box.regWidth);
    if Below(result, cur) {
      UncoreDecreased(p, c, raw.ctx, cpu, cm, cur, overflows, boxOffset);
    }
  }

  /** A decrease: the global probe, then the box probe when it says so, on registers as they were. */
  lemma UncoreDecreased(p: Platform, c: Ctx, c1: Ctx, cpu: nat, cm: CounterMapEntry, cur: bv64, overflows: nat, boxOffset: int)
    requires UncoreWorks(p, cpu, cm, Box(p, cm.regType))
    requires Get(c1.regs, KStatus(cpu, cm, Box(p, cm.regType))) == Get(c.regs, KStatus(cpu, cm, Box(p, cm.regType)))
    requires Get(c1.regs, Msr(cpu, UncoreGlobalStatus)) == Get(c.regs, Msr(cpu, UncoreGlobalStatus))
    ensures var box := Box(p, cm.regType);
      var g := GlobalProbe(p, c1, cpu, box);
      && g.ok
      && (g.testLocal ==> BoxProbe(p, g.ctx, cpu, cm, box, boxOffset, overflows).status == Ok)
      && (g.testLocal && UncoreOverflowed(c, cpu, cm, box, boxOffset) ==> BoxProbe(p, g.ctx, cpu, cm, box, boxOffset, overflows).overflows == overflows + 1)
      && (g.testLocal && !UncoreOverflowed(c, cpu, cm, box, boxOffset) ==> BoxProbe(p, g.ctx, cpu, cm, box, boxOffset, overflows).overflows == overflows)
      && (!g.testLocal ==> !UncoreOverflowed(c, cpu, cm, box, boxOffset))
  {
    var box := Box(p, cm.regType);
    GlobalProbeKeepsBox(p, c1, cpu, cm, box);
    var g := GlobalProbe(p, c1, cpu, box);
    if g.testLocal {
      BoxProbeRule(p, g.ctx, cpu, cm, box, boxOffset, overflows);
    }
  }

  /** The box probe with a working status register: one more overflow exactly when its bit is set. */
  lemma BoxProbeRule(p: Platform, c: Ctx, cpu: nat, cm: CounterMapEntry, box: BoxEntry, boxOffset: int, overflows: nat)
    requires KStatus(cpu, cm, box) !in p.faulty
    ensures var b := BoxProbe(p, c, cpu, cm, box, boxOffset, overflows);
      && b.status == Ok
      && (Meets(Get(c.regs, KStatus(cpu, cm, box)), IntBit(boxOffset)) ==> b.overflows == overflows + 1)
      && (!Meets(Get(c.regs, KStatus(cpu, cm, box)), IntBit(boxOffset)) ==> b.overflows == overflows)
  {
  }

  /** Whatever fails, the read adds at most one overflow, and a failed access leaves the result alone. */
  lemma UncoreReadBounds(p: Platform, c: Ctx, cpu: nat, owner: bool, cm: CounterMapEntry, cur: bv64, overflows: nat, clear: bool, boxOffset: int)
    ensures var r := UncoreRead(p, c, cpu, owner, cm, cur, overflows, clear, boxOffset);
      && (r.overflows == overflows || r.overflows == overflows + 1)
      && r.status != NoDevice
      && (r.status == AccessError ==> r.cur == cur)
      && (r.status == Ok && owner ==> LowBits(r.cur, Box(p, cm.regType).regWidth) == r.cur)
  {
    var box := Box(p, cm.regType);
    var raw := UncoreRaw(p, c, cpu, cm, clear);
    if owner && raw.ok {
      var result := LowBits(raw.value, box.regWidth);
      LowBitsIdempotent(raw.value, box.regWidth);
      if Below(result, cur) {
        var g := GlobalProbe(p, raw.ctx, cpu, box);
        if g.ok && g.testLocal {
          var b := BoxProbe(p, g.ctx, cpu, cm, box, boxOffset, overflows);
          BoxProbeBounds(p, g.ctx, cpu, cm, box, boxOffset, overflows);
          assert UncoreRead(p, c, cpu, owner, cm, cur, overflows, clear, boxOffset) ==
            if b.status == AccessError then UncoreResult(AccessError, b.ctx, cur, b.overflows)
            else UncoreResult(Ok, b.ctx, result, b.overflows);
        }
      }
    }
  }

  lemma BoxProbeBounds(p: Platform, c: Ctx, cpu: nat, cm: CounterMapEntry, box: BoxEntry, boxOffset: int, overflows: nat)
    ensures var b := BoxProbe(p, c, cpu, cm, box, boxOffset, overflows);
      (b.overflows == overflows || b.overflows == overflows + 1) && b.status != NoDevice
  {
  }

  lemma LowBitsIdempotent(v: bv64, w: nat)
    ensures LowBits(LowBits(v, w), w) == LowBits(v, w)
  {
  }

  // ------------------------------------------------------------------ init

  /**
   * Init takes the socket and the tile lock for the CPU when they are free
   * and leaves an owner already there in place; it then clears PEBS_ENABLE
   * and fails exactly when that write does.
   */
  lemma InitEffect(p: Platform, c: Ctx, cpu: nat)
    requires KnownCpu(p, cpu)
    ensures var r := InitSpec(p, c, cpu);
      && (r.status == Ok <==> Readable(p, Msr(cpu, PebsEnable)))
      && (p.socketOf[cpu] !in c.socketLock ==> HasSocketLock(p, r.ctx, cpu))
      && (p.socketOf[cpu] in c.socketLock ==> r.ctx.socketLock == c.socketLock)
      && (p.tileOf[cpu] !in c.tileLock ==> HasTileLock(p, r.ctx, cpu))
      && (p.tileOf[cpu] in c.tileLock ==> r.ctx.tileLock == c.tileLock)
      && (r.status == Ok ==> r.ctx.log == c.log + [Access(Msr(cpu, PebsEnable), 0)])
      && (r.status != Ok ==> r.ctx.log == c.log)
  {
  }

  /** Of two CPUs of one socket, the first to run init owns the socket's uncore, whatever the second does. */
  lemma InitFirstOwns(p: Platform, c: Ctx, cpu: nat, cpu': nat)
    requires KnownCpu(p, cpu) && KnownCpu(p, cpu') && cpu != cpu'
    requires p.socketOf[cpu] == p.socketOf[cpu'] && p.socketOf[cpu] !in c.socketLock
    ensures var r := InitSpec(p, InitSpec(p, c, cpu).ctx, cpu');
      HasSocketLock(p, r.ctx, cpu) && !HasSocketLock(p, r.ctx, cpu')
  {
    InitEffect(p, c, cpu);
    InitEffect(p, InitSpec(p, c, cpu).ctx, cpu');
  }

  // ----------------------------------------------------------------- setup

  /** What setup does to one record: an entry of a type in the mask is marked initialised, any other is untouched. */
  predicate SetUp(e: EventEntry, mask: set<RegisterType>, t: ThreadCounter, t': ThreadCounter)
  {
    t' == if e.regType in mask then t.(init := true) else t
  }

  lemma SetupEntryRecord(p: Platform, a: Acc, cpu: nat, owner: bool, mask: set<RegisterType>, e: EventEntry, i: nat)
    requires e.index in p.counterMap && i < |a.tcs|
    ensures SetUp(e, mask, a.tcs[i], SetupEntry(p, a, cpu, owner, mask, e, i).tcs[i])
  {
  }

  /** Setup's loop over the first `n` entries leaves each record as `SetUp` says, unless an entry failed. */
  lemma {:induction false} SetupLoopRecords(p: Platform, a: Acc, cpu: nat, owner: bool, mask: set<RegisterType>, es: seq<EventEntry>, n: nat)
    requires n <= |es| == |a.tcs| && EntriesMapped(p, es)
    ensures var r := SetupLoop(p, a, cpu, owner, mask, es, n);
      r.ok ==> forall j | 0 <= j < n :: SetUp(es[j], mask, a.tcs[j], r.tcs[j])
  {
    if n > 0 {
      var b := SetupLoop(p, a, cpu, owner, mask, es, n - 1);
      SetupLoopRecords(p, a, cpu, owner, mask, es, n - 1);
      if b.ok {
        var r := SetupEntry(p, b, cpu, owner, mask, es[n - 1], n - 1);
        assert b.tcs[n - 1] == a.tcs[n - 1];
        SetupEntryRecord(p, b, cpu, owner, mask, es[n - 1], n - 1);
        forall j | 0 <= j < n && r.ok
          ensures SetUp(es[j], mask, a.tcs[j], r.tcs[j])
        {
          if j < n - 1 {
            assert r.tcs[j] == b.tcs[j];
          }
        }
      }
    }
  }

  /**
   * A setup that succeeds marks every entry of a type in the mask
   * initialised and leaves the other records as they were; one whose header
   * writes fail leaves all records alone.
   */
  lemma SetupEffect(p: Platform, c: Ctx, cpu: nat, mask: set<RegisterType>, es: seq<EventEntry>, tcs: seq<ThreadCounter>)
    requires PhaseArgs(p, cpu, es, tcs)
    ensures var r := SetupSpec(p, c, cpu, mask, es, tcs);
      && (r.status == Ok ==> forall j | 0 <= j < |es| :: SetUp(es[j], mask, tcs[j], r.tcs[j]))
      && (!Writes(p, c, SetupHead(cpu, HasSocketLock(p, c, cpu), mask)).ok ==> r.status == AccessError && r.tcs == tcs)
  {
    var owner := HasSocketLock(p, c, cpu);
    var h := Writes(p, c, SetupHead(cpu, owner, mask));
    if h.ok {
      SetupLoopRecords(p, Acc(true, h.ctx, tcs, 0), cpu, owner, mask, es, |es|);
    }
  }

  // ----------------------------------------------------------------- start

  /**
   * What start does to one record: an initialised entry of a type in the
   * mask has its counter and full data zeroed and, unless POWER or WBOX0FIX
   * sample a start value, its start data too; any other entry is untouched.
   */
  predicate Started(e: EventEntry, mask: set<RegisterType>, t: ThreadCounter, t': ThreadCounter)
  {
    if t.init && e.regType in mask then
      && t'.counterData == 0 && t'.fullData == 0
      && (e.regType != Power && e.regType != Wbox0Fix ==> t'.startData == 0)
      && t'.init && t'.overflows == t.overflows
    else t' == t
  }

  lemma StartEntryRecord(p: Platform, a: Acc, cpu: nat, owner: bool, mask: set<RegisterType>, e: EventEntry, i: nat)
    requires e.index in p.counterMap && i < |a.tcs|
    ensures var r := StartEntry(p, a, cpu, owner, mask, e, i);
      r.ok ==> Started(e, mask, a.tcs[i], r.tcs[i])
  {
    if a.tcs[i].init && e.regType in mask {
      var tc := a.tcs[i].(startData := 0, counterData := 0, fullData := 0);
      var r := StartEntry(p, a, cpu, owner, mask, e, i);
      match e.regType
      case Pmc => assert r.tcs[i] == tc;
      case Fixed => assert r.tcs[i] == tc;
      case Power =>
        assert r.tcs[i].counterData == 0 && r.tcs[i].fullData == 0 && r.tcs[i].init && r.tcs[i].overflows == tc.overflows;
      case Wbox0Fix =>
        assert r.tcs[i].counterData == 0 && r.tcs[i].fullData == 0 && r.tcs[i].init && r.tcs[i].overflows == tc.overflows;
      case _ => assert r.tcs[i] == tc;
    }
  }

  /** Start's loop over the first `n` entries leaves each record as `Started` says. */
  lemma {:induction false} StartLoopRecords(p: Platform, a: Acc, cpu: nat, owner: bool, mask: set<RegisterType>, es: seq<EventEntry>, n: nat)
    requires n <= |es| == |a.tcs| && EntriesMapped(p, es)
    ensures var r := StartLoop(p, a, cpu, owner, mask, es, n);
      r.ok ==> forall j | 0 <= j < n :: Started(es[j], mask, a.tcs[j], r.tcs[j])
  {
    if n > 0 {
      var b := StartLoop(p, a, cpu, owner, mask, es, n - 1);
      StartLoopRecords(p, a, cpu, owner, mask, es, n - 1);
      if b.ok {
        var r := StartEntry(p, b, cpu, owner, mask, es[n - 1], n - 1);
        assert b.tcs[n - 1] == a.tcs[n - 1];
        StartEntryRecord(p, b, cpu, owner, mask, es[n - 1], n - 1);
        forall j | 0 <= j < n && r.ok
          ensures Started(es[j], mask, a.tcs[j], r.tcs[j])
        {
          if j < n - 1 {
            assert r.tcs[j] == b.tcs[j];
          }
        }
      }
    }
  }

  /**
   * The mask carries the enable bit of every initialised PMC and FIXED entry
   * of a type in the mask: `index - perf_num_fixed_ctr` and `index + 32`.
   */
  lemma {:induction false} EnableMaskCarries(p: Platform, es: seq<EventEntry>, tcs: seq<ThreadCounter>, mask: set<RegisterType>, n: nat, j: nat)
    requires n <= |es| == |tcs| && j < n && tcs[j].init && es[j].regType in mask
    ensures Carries(EnableMask(p, es, tcs, mask, n), EnableBit(p, es[j]))
  {
    var m := EnableBit(p, es[j]);
    var prev := EnableMask(p, es, tcs, mask, n - 1);
    var last := EntryEnable(p, es[n - 1], tcs[n - 1], mask);
    assert EnableMask(p, es, tcs, mask, n) == prev | last;
    if j < n - 1 {
      EnableMaskCarries(p, es, tcs, mask, n - 1, j);
      OrKeepLeft(prev, last, m);
    } else {
      EntryEnableOn(p, es[j], tcs[j], mask);
      CarriesSelf(m);
      OrKeepRight(prev, last, m);
    }
  }

  lemma EntryEnableOn(p: Platform, e: EventEntry, t: ThreadCounter, mask: set<RegisterType>)
    requires t.init && e.regType in mask
    ensures EntryEnable(p, e, t, mask) == EnableBit(p, e)
  {
  }

  lemma CarriesSelf(x: bv64)
    ensures Carries(x, x)
  {
  }

  /** The reverse: the mask has no bit that no such entry put there. */
  lemma {:induction false} EnableMaskOnly(p: Platform, es: seq<EventEntry>, tcs: seq<ThreadCounter>, mask: set<RegisterType>, n: nat, m: bv64)
    requires n <= |es| == |tcs|
    requires forall j | 0 <= j < n && tcs[j].init && es[j].regType in mask :: Avoids(EnableBit(p, es[j]), m)
    ensures Avoids(EnableMask(p, es, tcs, mask, n), m)
  {
    if n > 0 {
      var prev := EnableMask(p, es, tcs, mask, n - 1);
      var last := EntryEnable(p, es[n - 1], tcs[n - 1], mask);
      assert EnableMask(p, es, tcs, mask, n) == prev | last;
      EnableMaskOnly(p, es, tcs, mask, n - 1, m);
      EntryEnableAvoids(p, es[n - 1], tcs[n - 1], mask, m);
      OrNone(prev, last, m);
    }
  }

  lemma EntryEnableAvoids(p: Platform, e: EventEntry, t: ThreadCounter, mask: set<RegisterType>, m: bv64)
    requires t.init && e.regType in mask ==> Avoids(EnableBit(p, e), m)
    ensures Avoids(EntryEnable(p, e, t, mask), m)
  {
  }

  /**
   * A start that succeeds leaves every record as `Started` says and, with
   * PMC or FIXED counters in the set, ends by writing the overflow control
   * with bits 63, 62 and the enable mask and then the global control with the
   * mask.
   */
  lemma StartEffect(p: Platform, c: Ctx, cpu: nat, mask: set<RegisterType>, es: seq<EventEntry>, tcs: seq<ThreadCounter>)
    requires PhaseArgs(p, cpu, es, tcs)
    ensures var r := StartSpec(p, c, cpu, mask, es, tcs);
      var en := EnableMask(p, es, tcs, mask, |es|);
      && (r.status == Ok ==> forall j | 0 <= j < |es| :: Started(es[j], mask, tcs[j], r.tcs[j]))
      && (r.status == Ok && HasCoreCounters(mask) ==>
            |r.ctx.log| >= 2
            && r.ctx.log[|r.ctx.log| - 2..] == [Access(Msr(cpu, PerfGlobalOvfCtrl), Bit(63) | Bit(62) | en),
                                              Access(Msr(cpu, PerfGlobalCtrl), en)])
  {
    StartSpecRecords(p, c, cpu, mask, es, tcs);
    StartSpecLog(p, c, cpu, mask, es, tcs);
  }

  lemma StartSpecRecords(p: Platform, c: Ctx, cpu: nat, mask: set<RegisterType>, es: seq<EventEntry>, tcs: seq<ThreadCounter>)
    requires PhaseArgs(p, cpu, es, tcs)
    ensures var r := StartSpec(p, c, cpu, mask, es, tcs);
      r.status == Ok ==> forall j | 0 <= j < |es| :: Started(es[j], mask, tcs[j], r.tcs[j])
  {
    var owner := HasSocketLock(p, c, cpu);
    var a := StartLoop(p, Acc(true, c, tcs, 0), cpu, owner, mask, es, |es|);
    StartLoopRecords(p, Acc(true, c, tcs, 0), cpu, owner, mask, es, |es|);
    var r := StartSpec(p, c, cpu, mask, es, tcs);
    assert r.status == Ok ==> a.ok && r.tcs == a.tcs;
  }

  lemma StartSpecLog(p: Platform, c: Ctx, cpu: nat, mask: set<RegisterType>, es: seq<EventEntry>, tcs: seq<ThreadCounter>)
    requires PhaseArgs(p, cpu, es, tcs)
    ensures var r := StartSpec(p, c, cpu, mask, es, tcs);
      var en := EnableMask(p, es, tcs, mask, |es|);
      r.status == Ok && HasCoreCounters(mask) ==>
        |r.ctx.log| >= 2
        && r.ctx.log[|r.ctx.log| - 2..] == [Access(Msr(cpu, PerfGlobalOvfCtrl), Bit(63) | Bit(62) | en),
                                          Access(Msr(cpu, PerfGlobalCtrl), en)]
  {
    var owner := HasSocketLock(p, c, cpu);
    var a := StartLoop(p, Acc(true, c, tcs, 0), cpu, owner, mask, es, |es|);
    if a.ok {
      var u := Writes(p, a.ctx, UnfreezeAndReset(p, cpu, owner, mask, es));
      if u.ok && HasCoreCounters(mask) {
        StartCoreLog(p, u.ctx, cpu, mask, EnableMask(p, es, tcs, mask, |es|));
      }
    }
  }

  /** The core block of start, when it succeeds, ends the log with its two writes. */
  lemma StartCoreLog(p: Platform, c: Ctx, cpu: nat, mask: set<RegisterType>, en: bv64)
    requires HasCoreCounters(mask)
    ensures var g := Writes(p, c, StartCore(cpu, mask, en));
      g.ok ==> |g.ctx.log| >= 2
               && g.ctx.log[|g.ctx.log| - 2..] == [Access(Msr(cpu, PerfGlobalOvfCtrl), Bit(63) | Bit(62) | en),
                                                   Access(Msr(cpu, PerfGlobalCtrl), en)]
  {
    var ws := StartCore(cpu, mask, en);
    WritesLog(p, c, ws);
    var g := Writes(p, c, ws);
    if g.ok {
      assert g.ctx.log == c.log + ws;
      assert g.ctx.log[|g.ctx.log| - 2..] == ws;
    }
  }

  // ------------------------------------------------------------------ stop

  /**
   * What stop does to one record: an initialised entry of a type in the mask
   * is no longer initialised, and an uncore entry keeps `counterData == 0`;
   * any other entry is untouched.
   */
  predicate Stopped(e: EventEntry, mask: set<RegisterType>, t: ThreadCounter, t': ThreadCounter)
  {
    if t.init && e.regType in mask then !t'.init && (ReadsUncore(e.regType) ==> t'.counterData == 0)
    else t' == t
  }

  lemma ReadEntryUncore(p: Platform, c: Ctx, cpu: nat, owner: bool, e: EventEntry, tc: ThreadCounter, clear: bool)
    requires e.index in p.counterMap && ReadsUncore(e.regType)
    ensures var s := ReadEntry(p, c, cpu, owner, e, tc, clear);
      s.ok && s.tc.counterData == 0 && s.tc.init == tc.init
  {
    ReadSampleUncore(p, c, cpu, owner, e, tc, clear);
    LowBitsOfZero(Box(p, e.regType).regWidth);
  }

  /** The uncore arm of the switch always succeeds and leaves `counter_result` at 0. */
  lemma ReadSampleUncore(p: Platform, c: Ctx, cpu: nat, owner: bool, e: EventEntry, tc: ThreadCounter, clear: bool)
    requires e.index in p.counterMap && ReadsUncore(e.regType)
    ensures var s := ReadSample(p, c, cpu, owner, e, tc, clear);
      s.ok && s.value == 0
  {
  }

  lemma StopEntryEffect(p: Platform, a: Acc, cpu: nat, owner: bool, mask: set<RegisterType>, e: EventEntry, i: nat)
    requires e.index in p.counterMap && i < |a.tcs|
    ensures var r := StopEntry(p, a, cpu, owner, mask, e, i);
      r.ok ==> Stopped(e, mask, a.tcs[i], r.tcs[i])
  {
    if a.tcs[i].init && e.regType in mask && ReadsUncore(e.regType) {
      ReadEntryUncore(p, a.ctx, cpu, owner, e, a.tcs[i], true);
    }
  }

  lemma {:induction false} StopLoopEffect(p: Platform, a: Acc, cpu: nat, owner: bool, mask: set<RegisterType>, es: seq<EventEntry>, n: nat)
    requires n <= |es| == |a.tcs| && EntriesMapped(p, es)
    ensures var r := StopLoop(p, a, cpu, owner, mask, es, n);
      r.ok ==> a.ok && forall j | 0 <= j < n :: Stopped(es[j], mask, a.tcs[j], r.tcs[j])
  {
    if n > 0 {
      var b := StopLoop(p, a, cpu, owner, mask, es, n - 1);
      StopLoopEffect(p, a, cpu, owner, mask, es, n - 1);
      if b.ok {
        StopEntryEffect(p, b, cpu, owner, mask, es[n - 1], n - 1);
      }
    }
  }

  /**
   * A stop that succeeds leaves no entry of a type in the mask initialised,
   * keeps `init` of the entries whose type the mask lacks, and leaves every
   * uncore entry it read with `counterData == 0`.
   */
  lemma StopEffect(p: Platform, c: Ctx, cpu: nat, mask: set<RegisterType>, es: seq<EventEntry>, tcs: seq<ThreadCounter>)
    requires PhaseArgs(p, cpu, es, tcs)
    ensures var r := StopSpec(p, c, cpu, mask, es, tcs);
      r.status == Ok ==>
        && (forall j | 0 <= j < |es| :: r.tcs[j].init == (tcs[j].init && es[j].regType !in mask))
        && (forall j | 0 <= j < |es| :: Stopped(es[j], mask, tcs[j], r.tcs[j]))
  {
    var owner := HasSocketLock(p, c, cpu);
    var h := Writes(p, c, StopHead(cpu, owner, mask));
    if h.ok {
      StopLoopEffect(p, Acc(true, h.ctx, tcs, 0), cpu, owner, mask, es, |es|);
    }
  }

  // ------------------------------------------------------------------ read

  lemma ReadLoopEntryEffect(p: Platform, a: Acc, cpu: nat, owner: bool, mask: set<RegisterType>, e: EventEntry, i: nat)
    requires e.index in p.counterMap && i < |a.tcs|
    ensures var r := ReadLoopEntry(p, a, cpu, owner, mask, e, i);
      && r.tcs[i].init == a.tcs[i].init
      && (r.ok && a.tcs[i].init && e.regType in mask && ReadsUncore(e.regType) ==> r.tcs[i].counterData == 0)
  {
    if a.tcs[i].init && e.regType in mask && ReadsUncore(e.regType) {
      ReadEntryUncore(p, a.ctx, cpu, owner, e, a.tcs[i], false);
    }
  }

  lemma {:induction false} ReadLoopEffect(p: Platform, a: Acc, cpu: nat, owner: bool, mask: set<RegisterType>, es: seq<EventEntry>, n: nat)
    requires n <= |es| == |a.tcs| && EntriesMapped(p, es)
    ensures var r := ReadLoop(p, a, cpu, owner, mask, es, n);
      forall j | 0 <= j < n :: r.tcs[j].init == a.tcs[j].init
  {
    if n > 0 {
      var b := ReadLoop(p, a, cpu, owner, mask, es, n - 1);
      ReadLoopEffect(p, a, cpu, owner, mask, es, n - 1);
      if b.ok {
        ReadLoopEntryEffect(p, b, cpu, owner, mask, es[n - 1], n - 1);
      }
    }
  }

  /**
   * Read keeps every entry's `init`, and with PMC or FIXED counters in the
   * set a successful read ends by writing back the GLOBAL_CTRL value it found.
   */
  lemma ReadEffect(p: Platform, c: Ctx, cpu: nat, mask: set<RegisterType>, es: seq<EventEntry>, tcs: seq<ThreadCounter>)
    requires PhaseArgs(p, cpu, es, tcs)
    ensures var r := ReadSpec(p, c, cpu, mask, es, tcs);
      && (forall j | 0 <= j < |es| :: r.tcs[j].init == tcs[j].init)
      && (r.status == Ok && HasCoreCounters(mask) ==>
            |r.ctx.log| >= 1 && r.ctx.log[|r.ctx.log| - 1] == Access(Msr(cpu, PerfGlobalCtrl), Get(c.regs, Msr(cpu, PerfGlobalCtrl))))
  {
    var owner := HasSocketLock(p, c, cpu);
    var kg := Msr(cpu, PerfGlobalCtrl);
    if !(HasCoreCounters(mask) && !Readable(p, kg)) {
      var saved := if HasCoreCounters(mask) then Get(c.regs, kg) else 0;
      var h := Writes(p, c, (if HasCoreCounters(mask) then [Access(kg, 0)] else []) + FreezeUncore(cpu, owner, mask));
      if h.ok {
        var a := ReadLoop(p, Acc(true, h.ctx, tcs, 0), cpu, owner, mask, es, |es|);
        ReadLoopEffect(p, Acc(true, h.ctx, tcs, 0), cpu, owner, mask, es, |es|);
        if a.ok {
          var tail := UnfreezeUncore(cpu, owner, mask) + (if HasCoreCounters(mask) then [Access(kg, saved)] else []);
          WritesLog(p, a.ctx, tail);
        }
      }
    }
  }

  // -------------------------------------------------------------- finalize

  /** What finalize does to one record: every entry but a NOTYPE one is no longer initialised, and nothing else changes. */
  predicate Finalized(e: EventEntry, t: ThreadCounter, t': ThreadCounter)
  {
    t' == if e.regType == NoType then t else t.(init := false)
  }

  lemma FinalizeEntryEffect(p: Platform, a: Acc, cpu: nat, owner: bool, tileOwner: bool, e: EventEntry, i: nat)
    requires e.index in p.counterMap && i < |a.tcs|
    ensures var r := FinalizeEntry(p, a, cpu, owner, tileOwner, e, i);
      r.ok ==> Finalized(e, a.tcs[i], r.tcs[i])
  {
  }

  lemma {:induction false} FinalizeLoopEffect(p: Platform, a: Acc, cpu: nat, owner: bool, tileOwner: bool, es: seq<EventEntry>, n: nat)
    requires n <= |es| == |a.tcs| && EntriesMapped(p, es)
    ensures var r := FinalizeLoop(p, a, cpu, owner, tileOwner, es, n);
      r.ok ==> a.ok && forall j | 0 <= j < n :: Finalized(es[j], a.tcs[j], r.tcs[j])
  {
    if n > 0 {
      var b := FinalizeLoop(p, a, cpu, owner, tileOwner, es, n - 1);
      FinalizeLoopEffect(p, a, cpu, owner, tileOwner, es, n - 1);
      var r := FinalizeLoop(p, a, cpu, owner, tileOwner, es, n);
      if r.ok {
        FinalizeLoopNext(p, a, cpu, owner, tileOwner, es, n);
        assert b.tcs[n - 1] == a.tcs[n - 1];
        FinalizedStep(es, a.tcs, b.tcs, r.tcs, n);
      }
    }
  }

  /** Iteration `n - 1` of finalize's loop finalizes record `n - 1` and no other. */
  lemma FinalizeLoopNext(p: Platform, a: Acc, cpu: nat, owner: bool, tileOwner: bool, es: seq<EventEntry>, n: nat)
    requires 0 < n <= |es| == |a.tcs| && EntriesMapped(p, es)
    ensures var b := FinalizeLoop(p, a, cpu, owner, tileOwner, es, n - 1);
      var r := FinalizeLoop(p, a, cpu, owner, tileOwner, es, n);
      r.ok ==> b.ok && Finalized(es[n - 1], b.tcs[n - 1], r.tcs[n - 1])
               && forall j | 0 <= j < |b.tcs| && j != n - 1 :: r.tcs[j] == b.tcs[j]
  {
    var b := FinalizeLoop(p, a, cpu, owner, tileOwner, es, n - 1);
    if b.ok {
      FinalizeEntryEffect(p, b, cpu, owner, tileOwner, es[n - 1], n - 1);
    }
  }

  /** One more finalized record extends the finalized prefix. */
  lemma FinalizedStep(es: seq<EventEntry>, t0: seq<ThreadCounter>, b: seq<ThreadCounter>, r: seq<ThreadCounter>, n: nat)
    requires 0 < n <= |es| == |t0| == |b| == |r|
    requires forall j | 0 <= j < n - 1 :: Finalized(es[j], t0[j], b[j])
    requires b[n - 1] == t0[n - 1] && Finalized(es[n - 1], b[n - 1], r[n - 1])
    requires forall j | 0 <= j < |b| && j != n - 1 :: r[j] == b[j]
    ensures forall j | 0 <= j < n :: Finalized(es[j], t0[j], r[j])
  {
  }

  /** A finalize that succeeds clears `init` of every entry except the NOTYPE ones, and changes nothing else in the records. */
  lemma FinalizeEffect(p: Platform, c: Ctx, cpu: nat, mask: set<RegisterType>, es: seq<EventEntry>, tcs: seq<ThreadCounter>)
    requires PhaseArgs(p, cpu, es, tcs)
    ensures var r := FinalizeSpec(p, c, cpu, mask, es, tcs);
      r.status == Ok ==>
        forall j | 0 <= j < |es| :: Finalized(es[j], tcs[j], r.tcs[j])
  {
    var owner := HasSocketLock(p, c, cpu);
    var tileOwner := HasTileLock(p, c, cpu);
    FinalizeLoopEffect(p, Acc(true, c, tcs, Bit(63) | Bit(62)), cpu, owner, tileOwner, es, |es|);
  }

  // ------------------------------------------------- a failure ends the loop

  /** Once an iteration of setup's loop fails, the later entries are never looked at. */
  lemma {:induction false} SetupStuck(p: Platform, a: Acc, cpu: nat, owner: bool, mask: set<RegisterType>, es: seq<EventEntry>, k: nat, n: nat)
    requires k <= n <= |es| == |a.tcs| && EntriesMapped(p, es)
    requires !SetupLoop(p, a, cpu, owner, mask, es, k).ok
    ensures SetupLoop(p, a, cpu, owner, mask, es, n) == SetupLoop(p, a, cpu, owner, mask, es, k)
    decreases n
  {
    if n > k {
      SetupStuck(p, a, cpu, owner, mask, es, k, n - 1);
    }
  }

  lemma {:induction false} StartStuck(p: Platform, a: Acc, cpu: nat, owner: bool, mask: set<RegisterType>, es: seq<EventEntry>, k: nat, n: nat)
    requires k <= n <= |es| == |a.tcs| && EntriesMapped(p, es)
    requires !StartLoop(p, a, cpu, owner, mask, es, k).ok
    ensures StartLoop(p, a, cpu, owner, mask, es, n) == StartLoop(p, a, cpu, owner, mask, es, k)
    decreases n
  {
    if n > k {
      StartStuck(p, a, cpu, owner, mask, es, k, n - 1);
    }
  }

  lemma {:induction false} StopStuck(p: Platform, a: Acc, cpu: nat, owner: bool, mask: set<RegisterType>, es: seq<EventEntry>, k: nat, n: nat)
    requires k <= n <= |es| == |a.tcs| && EntriesMapped(p, es)
    requires !StopLoop(p, a, cpu, owner, mask, es, k).ok
    ensures StopLoop(p, a, cpu, owner, mask, es, n) == StopLoop(p, a, cpu, owner, mask, es, k)
    decreases n
  {
    if n > k {
      StopStuck(p, a, cpu, owner, mask, es, k, n - 1);
    }
  }

  lemma {:induction false} ReadStuck(p: Platform, a: Acc, cpu: nat, owner: bool, mask: set<RegisterType>, es: seq<EventEntry>, k: nat, n: nat)
    requires k <= n <= |es| == |a.tcs| && EntriesMapped(p, es)
    requires !ReadLoop(p, a, cpu, owner, mask, es, k).ok
    ensures ReadLoop(p, a, cpu, owner, mask, es, n) == ReadLoop(p, a, cpu, owner, mask, es, k)
    decreases n
  {
    if n > k {
      ReadStuck(p, a, cpu, owner, mask, es, k, n - 1);
    }
  }

  lemma {:induction false} FinalizeStuck(p: Platform, a: Acc, cpu: nat, owner: bool, tileOwner: bool, es: seq<EventEntry>, k: nat, n: nat)
    requires k <= n <= |es| == |a.tcs| && EntriesMapped(p, es)
    requires !FinalizeLoop(p, a, cpu, owner, tileOwner, es, k).ok
    ensures FinalizeLoop(p, a, cpu, owner, tileOwner, es, n) == FinalizeLoop(p, a, cpu, owner, tileOwner, es, k)
    decreases n
  {
    if n > k {
      FinalizeStuck(p, a, cpu, owner, tileOwner, es, k, n - 1);
    }
  }
}
