/**
 * What one encoder call does to the hardware: the off-core response write
 * and its order, write-on-change caching, the ownership and device gates,
 * the enable bits of the uncore words and two-phase arming.
 */
module PlanProps {

  import opened Bits
  import opened PerfmonTypes
  import opened Transport
  import opened Encoders
  import opened Lifecycle
  import opened EncoderProps

  // ------------------------------------------------------------- off-core

  /** The off-core response register an event programs, if any. */
  predicate IsOffcore(e: PerfmonEvent)
  {
    e.eventId == 0xB7 || e.eventId == 0xBB
  }

  function OffcoreReg(e: PerfmonEvent): Reg
  {
    if e.eventId == 0xB7 then OffcoreResp0 else OffcoreResp1
  }

  /**
   * Events 0xB7 and 0xBB write their off-core response register before the
   * control register: a successful run whose word changed logs exactly those
   * two writes, in that order, and caches the word. Other events write only
   * the control register.
   */
  lemma PmcRunOrder(p: Platform, c: Ctx, cpu: nat, index: nat, cm: CounterMapEntry, e: PerfmonEvent)
    requires PmcWord(e) != Cached(c, cpu, index)
    ensures var r := RunPlan(p, c, cpu, index, PmcPlan(cpu, cm, e, Cached(c, cpu, index)));
      var cfg := Access(RegKey(cpu, MsrDev, Addr(cm.configRegister)), PmcWord(e));
      && (r.status != AccessError && IsOffcore(e) ==>
            r.ctx.log == c.log + [Access(RegKey(cpu, MsrDev, OffcoreReg(e)), OffcoreValue(e)), cfg])
      && (r.status != AccessError && !IsOffcore(e) ==> r.ctx.log == c.log + [cfg])
      && (r.status != AccessError ==> Cached(r.ctx, cpu, index) == PmcWord(e))
  {
    RunPlanEffect(p, c, cpu, index, PmcPlan(cpu, cm, e, Cached(c, cpu, index)));
  }

  /**
   * With cfgBits and cmask both other than 0xFF the off-core value is the two
   * bits they name, whatever MATCH0/MATCH1 options the event carries.
   */
  lemma OffcoreIgnoresMatch(e: PerfmonEvent, opts: seq<EventOption>)
    requires e.cfgBits != 0xFF && e.cmask != 0xFF
    ensures OffcoreValue(e.(options := opts)) == OffcoreValue(e)
    ensures Carries(OffcoreValue(e), ByteBit(e.cfgBits)) && Carries(OffcoreValue(e), ByteBit(e.cmask))
  {
    OffcoreValueBits(e);
    OffcoreValueBits(e.(options := opts));
    OffcoreCarries(e);
  }

  lemma OffcoreCarries(e: PerfmonEvent)
    requires OffcoreValue(e) == ByteBit(e.cfgBits) | ByteBit(e.cmask)
    ensures Carries(OffcoreValue(e), ByteBit(e.cfgBits)) && Carries(OffcoreValue(e), ByteBit(e.cmask))
  {
    OrCarriesBoth(ByteBit(e.cfgBits), ByteBit(e.cmask));
  }

  lemma OffcoreValueBits(e: PerfmonEvent)
    requires e.cfgBits != 0xFF && e.cmask != 0xFF
    ensures OffcoreValue(e) == ByteBit(e.cfgBits) | ByteBit(e.cmask)
  {
  }

  lemma OrCarriesBoth(x: bv64, y: bv64)
    ensures Carries(x | y, x) && Carries(x | y, y)
  {
  }

  // ------------------------------------------------------- write-on-change

  /** The cached word once a plan has run: the plan's word if it stores one, else the old one. */
  function CachedAfter(plan: Plan, cached: bv64): bv64
  {
    if plan.cache.Some? then plan.cache.value else cached
  }

  /** A single-write plan asked again with the word it left in the cache writes nothing. */
  lemma OnChangeSettles(key: RegKey, w: bv64, cached: bv64, aux: seq<Access>, aux': seq<Access>)
    ensures var plan := OnChange(key, w, cached, aux);
      && OnChange(key, w, CachedAfter(plan, cached), aux').config == []
      && (w != cached <==> plan.config == [Access(key, w)])
  {
  }

  /** The same for the double write: the armed word it cached stops the next one. */
  lemma TwoPhaseSettles(key: RegKey, flags: bv64, cached: bv64, aux: seq<Access>, aux': seq<Access>)
    ensures var plan := TwoPhase(key, flags, cached, aux);
      && TwoPhase(key, flags, CachedAfter(plan, cached), aux').config == []
      && (flags | Bit(22) != cached <==> |plan.config| == 2)
  {
  }

  /**
   * Write-on-change: once an encoder has run without a failed access, the
   * same event on the same slot yields no config-register write, because the
   * word it would write is the one now cached.
   */
  lemma EncoderRepeat(p: Platform, c: Ctx, cpu: nat, owner: bool, e: EventEntry)
    requires e.index in p.counterMap
    ensures var r := RunPlan(p, c, cpu, e.index, EncoderPlan(p, c, cpu, owner, e));
      r.status != AccessError ==> EncoderPlan(p, r.ctx, cpu, owner, e).config == []
  {
    var plan := EncoderPlan(p, c, cpu, owner, e);
    var r := RunPlan(p, c, cpu, e.index, plan);
    RunPlanEffect(p, c, cpu, e.index, plan);
    if r.status != AccessError {
      assert Cached(r.ctx, cpu, e.index) == CachedAfter(plan, Cached(c, cpu, e.index));
      EncoderSettles(p, c, r.ctx, cpu, owner, e);
    }
  }

  /** An encoder asked again with the word its plan cached writes no config register. */
  lemma EncoderSettles(p: Platform, c: Ctx, c': Ctx, cpu: nat, owner: bool, e: EventEntry)
    requires e.index in p.counterMap
    requires Cached(c', cpu, e.index) == CachedAfter(EncoderPlan(p, c, cpu, owner, e), Cached(c, cpu, e.index))
    ensures EncoderPlan(p, c', cpu, owner, e).config == []
  {
    var cm := p.counterMap[e.index];
    var cached := Cached(c, cpu, e.index);
    var present := DevicePresent(p, cm.device, cpu);
    match e.regType
    case Pmc =>
      OnChangeSettles(RegKey(cpu, MsrDev, Addr(cm.configRegister)), PmcWord(e.event), cached,
                      OffcoreWrites(cpu, e.event), OffcoreWrites(cpu, e.event));
    case Ubox =>
      if owner {
        OnChangeSettles(RegKey(cpu, MsrDev, Addr(cm.configRegister)), UboxWord(e.event), cached, [], []);
      }
    case Cbox(_) =>
      if owner {
        CboxSettles(cpu, cm, Box(p, cm.regType), e.event, cached);
      }
    case Wbox =>
      if owner {
        WboxSettles(cpu, cm, Box(p, cm.regType), e.event, cached);
      }
    case Bbox(_) =>
      if owner && present {
        BboxSettles(cpu, cm, e.event, cached);
      }
    case Mbox(_) =>
      if owner && present {
        TwoPhaseSettles(RegKey(cpu, cm.device, Addr(cm.configRegister)), BoxWord(e.event), cached, [], []);
      }
    case Ibox(_) =>
      if owner && present {
        TwoPhaseSettles(RegKey(cpu, cm.device, Addr(cm.configRegister)), BoxWord(e.event), cached, [], []);
      }
    case Pbox =>
      if owner && present {
        TwoPhaseSettles(RegKey(cpu, cm.device, Addr(cm.configRegister)), BoxWord(e.event), cached, [], []);
      }
    case MboxFix(_) =>
      if owner && present {
        OnChangeSettles(RegKey(cpu, cm.device, Addr(cm.configRegister)), MboxFixWord(e.event), cached, [], []);
      }
    case _ =>
  }

  lemma CboxSettles(cpu: nat, cm: CounterMapEntry, box: BoxEntry, e: PerfmonEvent, cached: bv64)
    ensures CboxPlan(true, cpu, cm, box, e, CachedAfter(CboxPlan(true, cpu, cm, box, e, cached), cached)).config == []
  {
  }

  /**
   * The filter writes of CBOX: filter 0 gets the STATE/TID word and filter 1
   * the OPCODE/NID/MATCH0 word; a third write to filter 0, with every cache
   * state bit (17..21) set, follows exactly for event 0x34 without a STATE
   * option.
   */
  lemma CboxStateAllWrite(cpu: nat, cm: CounterMapEntry, box: BoxEntry, e: PerfmonEvent, cached: bv64)
    ensures var aux := CboxPlan(true, cpu, cm, box, e, cached).aux;
      |aux| >= 2
      && aux[0] == Access(RegKey(cpu, MsrDev, Addr(box.filterRegister1)), OrOver(CboxFilter0Field, e.options))
      && aux[1] == Access(RegKey(cpu, MsrDev, Addr(box.filterRegister2)), OrOver(CboxFilter1Field, e.options))
    ensures |CboxPlan(true, cpu, cm, box, e, cached).aux| == 3 <==> e.eventId == 0x34 && !HasOption(e.options, State)
    ensures var aux := CboxPlan(true, cpu, cm, box, e, cached).aux;
      |aux| == 3 ==> aux[2].key == RegKey(cpu, MsrDev, Addr(box.filterRegister1)) && Carries(aux[2].value, 0x3E_0000)
  {
    var f0 := OrOver(CboxFilter0Field, e.options);
    var f1 := OrOver(CboxFilter1Field, e.options);
    var readBack := if box.filterRegister2 == box.filterRegister1 then f1 else f0;
    assert Carries(readBack | CboxAllStates, 0x3E_0000);
  }

  lemma WboxSettles(cpu: nat, cm: CounterMapEntry, box: BoxEntry, e: PerfmonEvent, cached: bv64)
    ensures WboxPlan(true, cpu, cm, box, e, CachedAfter(WboxPlan(true, cpu, cm, box, e, cached), cached)).config == []
  {
  }

  lemma BboxSettles(cpu: nat, cm: CounterMapEntry, e: PerfmonEvent, cached: bv64)
    ensures BboxPlan(true, true, cpu, cm, e, CachedAfter(BboxPlan(true, true, cpu, cm, e, cached), cached)).config == []
  {
  }

  /**
   * The FIXED counters share one control register, written once after the
   * loop: an entry whose word is already cached adds nothing to it, so a
   * second pass over the same entry changes neither the state nor the word.
   */
  lemma FixedRepeat(p: Platform, a: Acc, cpu: nat, owner: bool, mask: set<RegisterType>, e: EventEntry, i: nat)
    requires e.index in p.counterMap && i < |a.tcs| && e.regType == Fixed && Fixed in mask
    ensures var b := SetupEntry(p, a, cpu, owner, mask, e, i);
      var b2 := SetupEntry(p, b, cpu, owner, mask, e, i);
      && Cached(b.ctx, cpu, e.index) == FixedWord(e.index, e.event.options)
      && b2.ctx == b.ctx && b2.word == b.word && b2.tcs == b.tcs
  {
    var b := SetupEntry(p, a, cpu, owner, mask, e, i);
    assert b.tcs[i] == a.tcs[i].(init := true);
    assert b.tcs[i := b.tcs[i].(init := true)] == b.tcs;
  }

  // ---------------------------------------------------------------- gates

  /** The encoders that end with -ENODEV when HPMcheck fails for their PCI device. */
  predicate NeedsDevice(t: RegisterType)
  {
    t.Bbox? || t.Mbox? || t.Ibox? || t.Pbox? || t.MboxFix?
  }

  /** A CPU that does not own its socket's uncore returns 0 from every uncore encoder and touches nothing. */
  lemma EncoderOwnerGate(p: Platform, c: Ctx, cpu: nat, e: EventEntry)
    requires e.index in p.counterMap && !IsCoreType(e.regType)
    ensures RunPlan(p, c, cpu, e.index, EncoderPlan(p, c, cpu, false, e)) == Ran(Ok, c)
  {
    assert EncoderPlan(p, c, cpu, false, e) == Skip(Ok);
    RunSkip(p, c, cpu, e.index, Ok);
  }

  /**
   * The same at the level of setup's loop: for a non-owner an uncore entry
   * (UBOXFIX included) only becomes initialised.
   */
  lemma SetupOwnerGate(p: Platform, a: Acc, cpu: nat, mask: set<RegisterType>, e: EventEntry, i: nat)
    requires e.index in p.counterMap && i < |a.tcs| && !IsCoreType(e.regType) && e.regType in mask
    ensures SetupEntry(p, a, cpu, false, mask, e, i) == a.(ok := true, tcs := a.tcs[i := a.tcs[i].(init := true)])
  {
    if e.regType != UboxFix {
      EncoderOwnerGate(p, a.ctx, cpu, e);
    }
  }

  /** An owner whose PCI box is absent gets -ENODEV and nothing is written. */
  lemma EncoderDeviceGate(p: Platform, c: Ctx, cpu: nat, e: EventEntry)
    requires e.index in p.counterMap && NeedsDevice(e.regType)
    requires !DevicePresent(p, p.counterMap[e.index].device, cpu)
    ensures RunPlan(p, c, cpu, e.index, EncoderPlan(p, c, cpu, true, e)) == Ran(NoDevice, c)
  {
    assert EncoderPlan(p, c, cpu, true, e) == Skip(NoDevice);
    RunSkip(p, c, cpu, e.index, NoDevice);
  }

  // ---------------------------------------------------------- enable bits

  /** The UBOX word carries enable (22) and reset (20). */
  lemma UboxWordEnable(e: PerfmonEvent)
    ensures Carries(UboxWord(e), 0x50_0000)
  {
    UncoreBaseLiterals();
    OrKeepLeft(Bit(22) | Bit(20), EventSelect(e), 0x50_0000);
    OrKeepLeft(Bit(22) | Bit(20) | EventSelect(e), OrOver(UboxField, e.options), 0x50_0000);
  }

  /** The CBOX word carries enable (22). */
  lemma CboxWordEnable(e: PerfmonEvent)
    ensures Carries(CboxWord(e), 0x40_0000)
  {
    UncoreBaseLiterals();
    OrKeepLeft(Bit(22), EventSelect(e), 0x40_0000);
    OrKeepLeft(Bit(22) | EventSelect(e), OrOver(CboxField, e.options), 0x40_0000);
  }

  /** The WBOX word carries enable and reset, except that umask 0xFF makes it bit 21 instead. */
  lemma WboxWordEnable(e: PerfmonEvent)
    ensures e.umask != 0xFF ==> Carries(WboxWord(e), 0x50_0000)
    ensures e.umask == 0xFF ==> Carries(WboxWord(e), 0x20_0000)
  {
    UncoreBaseLiterals();
    var m: bv64 := if e.umask == 0xFF then 0x20_0000 else 0x50_0000;
    WboxSelectEnable(e);
    OrKeepLeft(WboxSelect(e), OrOver(WboxField, e.options), m);
  }

  lemma WboxSelectEnable(e: PerfmonEvent)
    ensures e.umask != 0xFF ==> Carries(WboxSelect(e), 0x50_0000)
    ensures e.umask == 0xFF ==> WboxSelect(e) == 0x20_0000
  {
    UncoreBaseLiterals();
    var base := Bit(22) | Bit(20) | (e.eventId as bv64);
    OrKeepLeft(Bit(22) | Bit(20), e.eventId as bv64, 0x50_0000);
    if 0x00 < e.umask <= 0x3 {
      OrKeepLeft(base, (e.umask as bv64) << 14, 0x50_0000);
    }
  }

  /** The MBOXFIX word is written once, already carrying enable (22) and reset (20). */
  lemma MboxFixArmed(cpu: nat, cm: CounterMapEntry, e: PerfmonEvent, cached: bv64)
    ensures var plan := MboxFixPlan(true, true, cpu, cm, e, cached);
      && |plan.config| <= 1
      && (|plan.config| == 1 ==> Carries(plan.config[0].value, 0x50_0000))
  {
    UncoreBaseLiterals();
    assert Bit(20) | Bit(22) == 0x50_0000;
    OrKeepLeft(Bit(20) | Bit(22), OrOver(MboxFixField, e.options), 0x50_0000);
  }

  // ---------------------------------------------------- two-phase arming

  /** No option of the memory, home-agent, IRP and ring-to-PCIe switch touches the enable bit. */
  lemma BoxOptionUnarmed(o: EventOption)
    ensures Avoids(OptionBits(BoxField, o), 0x40_0000)
  {
    if o.kind == Threshold {
      ThresholdUnarmed(o.value);
    }
  }

  lemma ThresholdUnarmed(v: bv64)
    ensures Avoids((v & 0xFF) << 24, 0x40_0000)
  {
  }

  lemma {:induction false} BoxEachUnarmed(opts: seq<EventOption>)
    ensures EachAvoids(o => OptionBits(BoxField, o), opts, 0x40_0000)
    decreases |opts|
  {
    if opts != [] {
      BoxEachUnarmed(opts[..|opts| - 1]);
      BoxOptionUnarmed(opts[|opts| - 1]);
    }
  }

  /** The first-phase word never has the enable bit. */
  lemma BoxWordUnarmed(e: PerfmonEvent)
    ensures Avoids(BoxWord(e), 0x40_0000)
  {
    UncoreBaseLiterals();
    EventSelectLow(e);
    AvoidsPart(EventSelect(e), 0xFFFF_FFFF_FFFF_0000, 0x40_0000);
    OrNone(Bit(20), EventSelect(e), 0x40_0000);
    BoxEachUnarmed(e.options);
    OrFoldAvoids(o => OptionBits(BoxField, o), e.options, 0x40_0000);
    OrNone(Bit(20) | EventSelect(e), OrOver(BoxField, e.options), 0x40_0000);
  }

  /**
   * Two-phase arming of a word without the enable bit: when the armed word
   * differs from the cache, the register is written first unarmed and then
   * with bit 22, and the armed word is cached.
   */
  lemma TwoPhaseArmed(key: RegKey, flags: bv64, cached: bv64, aux: seq<Access>)
    requires Avoids(flags, 0x40_0000) && flags | 0x40_0000 != cached
    ensures TwoPhase(key, flags, cached, aux)
         == Plan(Ok, aux, [Access(key, flags), Access(key, flags | 0x40_0000)], Some(flags | 0x40_0000))
    ensures Carries(flags | 0x40_0000, 0x40_0000)
  {
    UncoreBaseLiterals();
    OrKeepRight(flags, 0x40_0000, 0x40_0000);
  }

  /** When the armed word is the cached one, nothing is written. */
  lemma TwoPhaseQuiet(key: RegKey, flags: bv64, cached: bv64, aux: seq<Access>)
    requires flags | 0x40_0000 == cached
    ensures TwoPhase(key, flags, cached, aux) == Plan(Ok, aux, [], None)
  {
    UncoreBaseLiterals();
  }

  /** MBOX, IBOX and PBOX arm their word in two phases. */
  lemma TwoPhaseBoxArming(cpu: nat, cm: CounterMapEntry, e: PerfmonEvent, cached: bv64)
    ensures var plan := TwoPhaseBoxPlan(true, true, cpu, cm, e, cached);
      var key := RegKey(cpu, cm.device, Addr(cm.configRegister));
      && (BoxWord(e) | 0x40_0000 != cached ==>
            && plan.config == [Access(key, BoxWord(e)), Access(key, BoxWord(e) | 0x40_0000)]
            && Avoids(plan.config[0].value, 0x40_0000) && Carries(plan.config[1].value, 0x40_0000)
            && plan.cache == Some(BoxWord(e) | 0x40_0000))
      && (BoxWord(e) | 0x40_0000 == cached ==> plan.config == [] && plan.cache == None)
  {
    BoxWordUnarmed(e);
    var key := RegKey(cpu, cm.device, Addr(cm.configRegister));
    if BoxWord(e) | 0x40_0000 != cached {
      TwoPhaseArmed(key, BoxWord(e), cached, []);
    } else {
      TwoPhaseQuiet(key, BoxWord(e), cached, []);
    }
  }

  /** BBOX arms its word the same way, after its match-register writes. */
  lemma BboxArming(cpu: nat, cm: CounterMapEntry, e: PerfmonEvent, cached: bv64)
    ensures var plan := BboxPlan(true, true, cpu, cm, e, cached);
      var key := RegKey(cpu, cm.device, Addr(cm.configRegister));
      && plan.aux == BboxMatchWrites(cpu, cm.device, e.options) + BboxClearWrites(cpu, cm.device, e.options)
      && (BoxWord(e) | 0x40_0000 != cached ==>
            && plan.config == [Access(key, BoxWord(e)), Access(key, BoxWord(e) | 0x40_0000)]
            && Avoids(plan.config[0].value, 0x40_0000) && Carries(plan.config[1].value, 0x40_0000)
            && plan.cache == Some(BoxWord(e) | 0x40_0000))
      && (BoxWord(e) | 0x40_0000 == cached ==> plan.config == [] && plan.cache == None)
  {
    BoxWordUnarmed(e);
    var key := RegKey(cpu, cm.device, Addr(cm.configRegister));
    var aux := BboxMatchWrites(cpu, cm.device, e.options) + BboxClearWrites(cpu, cm.device, e.options);
    if BoxWord(e) | 0x40_0000 != cached {
      TwoPhaseArmed(key, BoxWord(e), cached, aux);
    } else {
      TwoPhaseQuiet(key, BoxWord(e), cached, aux);
    }
  }
}
