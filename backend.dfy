/**
 * The Broadwell backend as the C code runs it: one object holding the
 * register file, the write log, `currentConfig` and the two lock tables,
 * whose methods change them step by step. Every method is proved to do
 * exactly what the pure functions of `Transport`, `Encoders` and
 * `Lifecycle` describe, so the properties proved about those functions hold
 * of the methods.
 */
module Backend {

  import opened Bits
  import opened PerfmonTypes
  import opened Transport
  import opened Encoders
  import opened Lifecycle
  import opened LifecycleProps

  /** The option loop of one encoder: OR the switch `g` of every option into a word. */
  method Fold(g: EventOption -> bv64, opts: seq<EventOption>) returns (bits: bv64)
    ensures bits == OrFold(g, opts)
  {
    bits := 0;
    var j := 0;
    while j < |opts|
      invariant 0 <= j <= |opts|
      invariant bits == OrFold(g, opts[..j])
    {
      assert opts[..j + 1][..j] == opts[..j];
      bits := bits | g(opts[j]);
      j := j + 1;
    }
    assert opts[..j] == opts;
  }

  /** Whether some option has kind `k`, by a scan of the list. */
  method FindOption(opts: seq<EventOption>, k: OptionType) returns (found: bool)
    ensures found == HasOption(opts, k)
  {
    found := false;
    var j := 0;
    while j < |opts|
      invariant 0 <= j <= |opts|
      invariant found == HasOption(opts[..j], k)
    {
      assert opts[..j + 1][..j] == opts[..j];
      if opts[j].kind == k {
        found := true;
      }
      j := j + 1;
    }
    assert opts[..j] == opts;
  }

  /** The control word of bdw_pmc_setup. */
  method PmcFlags(e: PerfmonEvent) returns (flags: bv64)
    ensures flags == PmcWord(e)
  {
    flags := Bit(22) | Bit(16);
    flags := flags | EventSelect(e);
    if PmcUsesCfg(e) {
      flags := flags | CfgShifted(e.cmask, e.cfgBits);
    }
    var bits := Fold(o => OptionBits(PmcField, o), e.options);
    flags := flags | bits;
  }

  /** The off-core response value of bdw_pmc_setup: the MATCH options, unless cfgBits and cmask name two bits. */
  method OffcoreFlags(e: PerfmonEvent) returns (offcore: bv64)
    ensures offcore == OffcoreValue(e)
  {
    offcore := Fold(o => OptionBits(PmcOffcoreField, o), e.options);
    if e.cfgBits != 0xFF && e.cmask != 0xFF {
      offcore := ByteBit(e.cfgBits) | ByteBit(e.cmask);
    }
  }

  /** The control word of bdw_ubox_setup. */
  method UboxFlags(e: PerfmonEvent) returns (flags: bv64)
    ensures flags == UboxWord(e)
  {
    flags := Bit(22) | Bit(20);
    flags := flags | EventSelect(e);
    var bits := Fold(o => OptionBits(UboxField, o), e.options);
    flags := flags | bits;
  }

  /**
   * The option loop of bdw_cbox_setup: the control word, both filter words,
   * and whether filter 0 is to get every cache state (event 0x34 without a
   * STATE option).
   */
  method CboxOptions(e: PerfmonEvent) returns (flags: bv64, filter0: bv64, filter1: bv64, stateAll: bool)
    ensures flags == CboxWord(e)
    ensures filter0 == OrOver(CboxFilter0Field, e.options) && filter1 == OrOver(CboxFilter1Field, e.options)
    ensures stateAll == CboxStateAll(e)
  {
    flags := Bit(22);
    flags := flags | EventSelect(e);
    var bits := Fold(o => OptionBits(CboxField, o), e.options);
    flags := flags | bits;
    filter0 := Fold(o => OptionBits(CboxFilter0Field, o), e.options);
    filter1 := Fold(o => OptionBits(CboxFilter1Field, o), e.options);
    var hasState := FindOption(e.options, State);
    stateAll := e.eventId == 0x34 && !hasState;
  }

  /** The control word of bdw_wbox_setup: the event selection, then the options. */
  method WboxFlags(e: PerfmonEvent) returns (flags: bv64)
    ensures flags == WboxWord(e)
  {
    flags := Bit(22) | Bit(20);
    flags := flags | (e.eventId as bv64);
    if 0x00 < e.umask <= 0x3 {
      flags := flags | ((e.umask as bv64) << 14);
    } else if e.umask == 0xFF {
      flags := Bit(21);
    }
    assert flags == WboxSelect(e);
    var bits := Fold(o => OptionBits(WboxField, o), e.options);
    flags := flags | bits;
  }

  /** The unarmed control word of bdw_mbox_setup, bdw_bbox_setup, bdw_ibox_setup and bdw_pbox_setup. */
  method BoxFlags(e: PerfmonEvent) returns (flags: bv64)
    ensures flags == BoxWord(e)
  {
    flags := Bit(20);
    flags := flags | EventSelect(e);
    var bits := Fold(o => OptionBits(BoxField, o), e.options);
    flags := flags | bits;
  }

  /** The control word of bdw_mboxfix_setup. */
  method MboxFixFlags(e: PerfmonEvent) returns (flags: bv64)
    ensures flags == MboxFixWord(e)
  {
    flags := Bit(20) | Bit(22);
    var bits := Fold(o => OptionBits(MboxFixField, o), e.options);
    flags := flags | bits;
  }

  /** The writes of the first `j + 1` options are those of the first `j`, then those of option `j`. */
  lemma ConcatMapStep(g: EventOption -> seq<Access>, opts: seq<EventOption>, j: nat)
    requires j < |opts|
    ensures ConcatMap(g, opts[..j + 1]) == ConcatMap(g, opts[..j]) + g(opts[j])
  {
    assert opts[..j + 1][..j] == opts[..j];
  }

  /** The writes of a prefix of the options are a prefix of the writes of all of them. */
  lemma {:induction false} ConcatMapPrefix(g: EventOption -> seq<Access>, opts: seq<EventOption>, j: nat)
    requires j <= |opts|
    ensures ConcatMap(g, opts[..j]) <= ConcatMap(g, opts)
    decreases |opts| - j
  {
    if j == |opts| {
      assert opts[..j] == opts;
    } else {
      ConcatMapPrefix(g, opts, j + 1);
      ConcatMapStep(g, opts, j);
    }
  }

  /** One more entry ORs its enable bit into the mask. */
  lemma EnableMaskNext(p: Platform, es: seq<EventEntry>, tcs: seq<ThreadCounter>, mask: set<RegisterType>, i: nat, flags: bv64, bit: bv64)
    requires i < |es| == |tcs|
    requires flags == EnableMask(p, es, tcs, mask, i) && bit == EntryEnable(p, es[i], tcs[i], mask)
    ensures flags | bit == EnableMask(p, es, tcs, mask, i + 1)
  {
  }

  /** The counter clears of a prefix of the entries are a prefix of the clears of all of them. */
  lemma {:induction false} ResetPrefix(p: Platform, cpu: nat, es: seq<EventEntry>, j: nat)
    requires EntriesMapped(p, es) && j <= |es|
    ensures ResetCounters(p, cpu, es[..j]) <= ResetCounters(p, cpu, es)
    decreases |es| - j
  {
    if j == |es| {
      assert es[..j] == es;
    } else {
      ResetPrefix(p, cpu, es, j + 1);
      assert es[..j + 1][..j] == es[..j];
    }
  }

  /** The filter writes of bdw_cbox_setup are both filter writes, then the state write. */
  lemma CboxFiltersSplit(p: Platform, c: Ctx, k0: RegKey, k1: RegKey, f0: bv64, f1: bv64, stateAll: bool)
    ensures var r := Writes(p, c, [Access(k0, f0), Access(k1, f1)]);
      Writes(p, c, CboxFilterWrites(k0, k1, f0, f1, stateAll)) ==
      (if !r.ok then r
       else Writes(p, r.ctx, if stateAll then [Access(k0, (if k1 == k0 then f1 else f0) | CboxAllStates)] else []))
  {
    var both := [Access(k0, f0), Access(k1, f1)];
    var tail := if stateAll then [Access(k0, (if k1 == k0 then f1 else f0) | CboxAllStates)] else [];
    assert CboxFilterWrites(k0, k1, f0, f1, stateAll) == both + tail;
    WritesAppend(p, c, both, tail);
  }

  /** After both filter writes went through, filter 0 reads back the last value stored there. */
  lemma CboxReadBack(p: Platform, c: Ctx, k0: RegKey, k1: RegKey, f0: bv64, f1: bv64)
    ensures var r := Writes(p, c, [Access(k0, f0), Access(k1, f1)]);
      r.ok ==> Readable(p, k0) && Get(r.ctx.regs, k0) == (if k1 == k0 then f1 else f0)
  {
    WritesShort(p, c, Access(k0, f0), Access(k1, f1));
  }

  /** A write-on-change plan runs its side writes and then the write-on-change itself. */
  lemma RunOnChange(p: Platform, c: Ctx, cpu: nat, index: nat, key: RegKey, w: bv64, cached: bv64, aux: seq<Access>)
    ensures RunPlan(p, c, cpu, index, OnChange(key, w, cached, aux)) ==
      (var r := Writes(p, c, aux);
       if !r.ok then Ran(AccessError, r.ctx) else RunPlan(p, r.ctx, cpu, index, OnChange(key, w, cached, [])))
  {
    var plan := OnChange(key, w, cached, aux);
    RunPlanPrefix(p, c, cpu, index, plan, aux);
    assert plan.(aux := plan.aux[|aux|..]) == OnChange(key, w, cached, []);
  }

  /** The same for the two-phase boxes. */
  lemma RunTwoPhase(p: Platform, c: Ctx, cpu: nat, index: nat, key: RegKey, w: bv64, cached: bv64, aux: seq<Access>)
    ensures RunPlan(p, c, cpu, index, TwoPhase(key, w, cached, aux)) ==
      (var r := Writes(p, c, aux);
       if !r.ok then Ran(AccessError, r.ctx) else RunPlan(p, r.ctx, cpu, index, TwoPhase(key, w, cached, [])))
  {
    var plan := TwoPhase(key, w, cached, aux);
    RunPlanPrefix(p, c, cpu, index, plan, aux);
    assert plan.(aux := plan.aux[|aux|..]) == TwoPhase(key, w, cached, []);
  }

  /** The setup of a FIXED entry whose word changed caches the word and ORs it in. */
  lemma SetupFixedChanged(p: Platform, a: Acc, cpu: nat, owner: bool, mask: set<RegisterType>, e: EventEntry, i: nat)
    requires e.index in p.counterMap && i < |a.tcs| && e.regType == Fixed && e.regType in mask
    requires FixedWord(e.index, e.event.options) != Cached(a.ctx, cpu, e.index)
    ensures SetupEntry(p, a, cpu, owner, mask, e, i)
         == Acc(true, a.ctx.(config := a.ctx.config[(cpu, e.index) := FixedWord(e.index, e.event.options)]),
                a.tcs[i := a.tcs[i].(init := true)], a.word | FixedWord(e.index, e.event.options))
  {
  }

  /** The setup of a FIXED entry whose word is cached changes nothing but the entry's init flag. */
  lemma SetupFixedSame(p: Platform, a: Acc, cpu: nat, owner: bool, mask: set<RegisterType>, e: EventEntry, i: nat)
    requires e.index in p.counterMap && i < |a.tcs| && e.regType == Fixed && e.regType in mask
    requires FixedWord(e.index, e.event.options) == Cached(a.ctx, cpu, e.index)
    ensures SetupEntry(p, a, cpu, owner, mask, e, i) == Acc(true, a.ctx, a.tcs[i := a.tcs[i].(init := true)], a.word)
  {
  }

  class Broadwell {

    /** The tables and the transport's behaviour, fixed for the object's life. */
    const p: Platform

    var regs: map<RegKey, bv64>
    var log: seq<Access>
    var config: map<(nat, nat), bv64>
    var socketLock: map<nat, nat>
    var tileLock: map<nat, nat>

    /** The engine state the pure model works on. */
    function State(): Ctx
      reads this
    {
      Ctx(regs, log, config, socketLock, tileLock)
    }

    constructor (p: Platform, c: Ctx)
      ensures this.p == p && State() == c
    {
      this.p := p;
      regs := c.regs;
      log := c.log;
      config := c.config;
      socketLock := c.socketLock;
      tileLock := c.tileLock;
    }

    // ------------------------------------------------------------ transport

    /** HPMwrite */
    method HpmWrite(k: RegKey, v: bv64) returns (ok: bool)
      modifies this
      ensures config == old(config) && socketLock == old(socketLock) && tileLock == old(tileLock)
      ensures Exec(ok, State()) == Write(p, old(State()), k, v)
    {
      if k in p.faulty {
        return false;
      }
      regs := regs[k := v];
      log := log + [Access(k, v)];
      ok := true;
    }

    /** HPMread */
    method HpmRead(k: RegKey) returns (ok: bool, v: bv64)
      ensures ok == Readable(p, k)
      ensures ok ==> v == Get(regs, k)
    {
      if k in p.faulty {
        return false, 0;
      }
      ok := true;
      v := if k in regs then regs[k] else 0;
    }

    /** A run of writes, each checked; the first failure returns. */
    method WriteAll(ws: seq<Access>) returns (ok: bool)
      modifies this
      ensures config == old(config) && socketLock == old(socketLock) && tileLock == old(tileLock)
      ensures Exec(ok, State()) == Writes(p, old(State()), ws)
    {
      var j := 0;
      while j < |ws|
        invariant 0 <= j <= |ws|
        invariant Writes(p, old(State()), ws[..j]) == Exec(true, State())
        invariant config == old(config) && socketLock == old(socketLock) && tileLock == old(tileLock)
      {
        assert ws[..j + 1][..j] == ws[..j];
        ok := HpmWrite(ws[j].key, ws[j].value);
        if !ok {
          WritesStuck(p, old(State()), ws, j + 1);
          return;
        }
        j := j + 1;
      }
      assert ws[..j] == ws;
      ok := true;
    }

    /** `socket_lock[affinity_core2node_lookup[cpu]] == cpu` */
    function Owner(cpu: nat): bool
      reads this
      requires KnownCpu(p, cpu)
    {
      HasSocketLock(p, State(), cpu)
    }

    /** `tile_lock[affinity_thread2tile_lookup[cpu]] == cpu` */
    function TileOwner(cpu: nat): bool
      reads this
      requires KnownCpu(p, cpu)
    {
      HasTileLock(p, State(), cpu)
    }

    // ------------------------------------------------------------ encoders

    /** The closing block of most encoders: write the word and cache it, unless it is the cached one. */
    method Commit(cpu: nat, index: nat, key: RegKey, flags: bv64) returns (status: Status)
      modifies this
      ensures socketLock == old(socketLock) && tileLock == old(tileLock)
      ensures Ran(status, State()) == RunPlan(p, old(State()), cpu, index, OnChange(key, flags, old(Cached(State(), cpu, index)), []))
    {
      WritesShort(p, State(), Access(key, flags), Access(key, flags | Bit(22)));
      assert [] + [Access(key, flags)] == [Access(key, flags)];
      if flags != Cached(State(), cpu, index) {
        var ok := HpmWrite(key, flags);
        if !ok {
          return AccessError;
        }
        config := config[(cpu, index) := flags];
      }
      status := Ok;
    }

    /** The closing block of the two-phase boxes: write without, then with, the enable bit. */
    method CommitTwice(cpu: nat, index: nat, key: RegKey, flags: bv64) returns (status: Status)
      modifies this
      ensures socketLock == old(socketLock) && tileLock == old(tileLock)
      ensures Ran(status, State()) == RunPlan(p, old(State()), cpu, index, TwoPhase(key, flags, old(Cached(State(), cpu, index)), []))
    {
      var word := flags;
      WritesShort(p, State(), Access(key, flags), Access(key, flags | Bit(22)));
      assert [] + [Access(key, flags), Access(key, flags | Bit(22))] == [Access(key, flags), Access(key, flags | Bit(22))];
      if word | Bit(22) != Cached(State(), cpu, index) {
        var ok := HpmWrite(key, word);
        if !ok {
          return AccessError;
        }
        word := word | Bit(22);
        ok := HpmWrite(key, word);
        if !ok {
          return AccessError;
        }
        config := config[(cpu, index) := word];
      }
      status := Ok;
    }

    /** bdw_fixed_setup: the word for FIXED_CTR_CTRL when it changed, else 0. */
    method FixedSetup(cpu: nat, index: nat, opts: seq<EventOption>) returns (w: bv64)
      modifies this
      ensures var fw := FixedWord(index, opts);
        && (fw != old(Cached(State(), cpu, index)) ==> w == fw && State() == old(State()).(config := old(config)[(cpu, index) := fw]))
        && (fw == old(Cached(State(), cpu, index)) ==> w == 0 && State() == old(State()))
    {
      var bits := Fold(o => FixedOptionBits(index, o), opts);
      var flags := (NibbleBit(index, 1) | bits) & 0xFFFF_FFFF;
      if flags != Cached(State(), cpu, index) {
        config := config[(cpu, index) := flags];
        return flags;
      }
      w := 0;
    }

    /** bdw_pmc_setup */
    method PmcSetup(cpu: nat, index: nat, e: PerfmonEvent) returns (status: Status)
      requires index in p.counterMap
      modifies this
      ensures socketLock == old(socketLock) && tileLock == old(tileLock)
      ensures Ran(status, State()) == RunPlan(p, old(State()), cpu, index, PmcPlan(cpu, p.counterMap[index], e, old(Cached(State(), cpu, index))))
    {
      ghost var c0 := State();
      var cm := p.counterMap[index];
      var flags := PmcFlags(e);
      var key := RegKey(cpu, MsrDev, Addr(cm.configRegister));
      ghost var cached := Cached(c0, cpu, index);
      ghost var aux := OffcoreWrites(cpu, e);
      RunOnChange(p, c0, cpu, index, key, flags, cached, aux);
      if e.eventId == 0xB7 || e.eventId == 0xBB {
        var offcore := OffcoreFlags(e);
        var r := if e.eventId == 0xB7 then OffcoreResp0 else OffcoreResp1;
        assert aux == [Access(RegKey(cpu, MsrDev, r), offcore)];
        var ok := HpmWrite(RegKey(cpu, MsrDev, r), offcore);
        WritesShort(p, c0, aux[0], aux[0]);
        if !ok {
          return AccessError;
        }
      }
      status := Commit(cpu, index, key, flags);
    }

    /** bdw_ubox_setup */
    method UboxSetup(cpu: nat, index: nat, e: PerfmonEvent) returns (status: Status)
      requires KnownCpu(p, cpu) && index in p.counterMap
      modifies this
      ensures socketLock == old(socketLock) && tileLock == old(tileLock)
      ensures Ran(status, State()) ==
        RunPlan(p, old(State()), cpu, index, UboxPlan(old(Owner(cpu)), cpu, p.counterMap[index], e, old(Cached(State(), cpu, index))))
    {
      if !Owner(cpu) {
        RunSkip(p, State(), cpu, index, Ok);
        return Ok;
      }
      var cm := p.counterMap[index];
      var flags := UboxFlags(e);
      status := Commit(cpu, index, RegKey(cpu, MsrDev, Addr(cm.configRegister)), flags);
    }

    /** bdw_cbox_setup */
    method CboxSetup(cpu: nat, index: nat, e: PerfmonEvent) returns (status: Status)
      requires KnownCpu(p, cpu) && index in p.counterMap
      modifies this
      ensures socketLock == old(socketLock) && tileLock == old(tileLock)
      ensures Ran(status, State()) ==
        RunPlan(p, old(State()), cpu, index,
                CboxPlan(old(Owner(cpu)), cpu, p.counterMap[index], Box(p, p.counterMap[index].regType), e, old(Cached(State(), cpu, index))))
    {
      if !Owner(cpu) {
        RunSkip(p, State(), cpu, index, Ok);
        return Ok;
      }
      ghost var c0 := State();
      var cm := p.counterMap[index];
      var box := Box(p, cm.regType);
      var flags, filter0, filter1, stateAll := CboxOptions(e);
      var k0 := RegKey(cpu, MsrDev, Addr(box.filterRegister1));
      var k1 := RegKey(cpu, MsrDev, Addr(box.filterRegister2));
      var key := RegKey(cpu, MsrDev, Addr(cm.configRegister));
      RunOnChange(p, c0, cpu, index, key, flags, Cached(c0, cpu, index), CboxFilterWrites(k0, k1, filter0, filter1, stateAll));
      var ok := CboxFilters(k0, k1, filter0, filter1, stateAll);
      if !ok {
        return AccessError;
      }
      status := Commit(cpu, index, key, flags);
    }

    /** The filter block of bdw_cbox_setup. */
    method CboxFilters(k0: RegKey, k1: RegKey, filter0: bv64, filter1: bv64, stateAll: bool) returns (ok: bool)
      modifies this
      ensures config == old(config) && socketLock == old(socketLock) && tileLock == old(tileLock)
      ensures Exec(ok, State()) == Writes(p, old(State()), CboxFilterWrites(k0, k1, filter0, filter1, stateAll))
    {
      CboxFiltersSplit(p, State(), k0, k1, filter0, filter1, stateAll);
      CboxReadBack(p, State(), k0, k1, filter0, filter1);
      ok := WriteAll([Access(k0, filter0), Access(k1, filter1)]);
      if ok && stateAll {
        // filter 0 was just written, so it reads back
        var rok, v := HpmRead(k0);
        assert rok;
        ghost var mid := State();
        ok := HpmWrite(k0, v | CboxAllStates);
        WritesShort(p, mid, Access(k0, v | CboxAllStates), Access(k0, v | CboxAllStates));
      }
    }

    /** The filter writes of bdw_wbox_setup's option loop: each OCCUPANCY_FILTER value is written as it comes. */
    method WboxFilters(k: RegKey, opts: seq<EventOption>) returns (ok: bool, clean: bool)
      modifies this
      ensures config == old(config) && socketLock == old(socketLock) && tileLock == old(tileLock)
      ensures Exec(ok, State()) == Writes(p, old(State()), WboxFilterWrites(k, opts))
      ensures ok ==> clean == !HasOption(opts, OccupancyFilter)
    {
      ghost var c0 := State();
      ghost var g := o => WboxFilterWrite(k, o);
      clean := true;
      var j := 0;
      while j < |opts|
        invariant 0 <= j <= |opts|
        invariant clean == !HasOption(opts[..j], OccupancyFilter)
        invariant Writes(p, c0, ConcatMap(g, opts[..j])) == Exec(true, State())
        invariant config == c0.config && socketLock == c0.socketLock && tileLock == c0.tileLock
      {
        assert opts[..j + 1][..j] == opts[..j];
        ConcatMapStep(g, opts, j);
        var o := opts[j];
        if o.kind == OccupancyFilter {
          clean := false;
          WritesAppend(p, c0, ConcatMap(g, opts[..j]), g(o));
          WritesShort(p, State(), Access(k, o.value & 0xFFFF_FFFF), Access(k, o.value & 0xFFFF_FFFF));
          ok := HpmWrite(k, o.value & 0xFFFF_FFFF);
          if !ok {
            ConcatMapPrefix(g, opts, j + 1);
            WritesPrefixFails(p, c0, ConcatMap(g, opts[..j + 1]), ConcatMap(g, opts));
            return;
          }
        } else {
          assert ConcatMap(g, opts[..j + 1]) == ConcatMap(g, opts[..j]);
        }
        j := j + 1;
      }
      assert opts[..j] == opts;
      ok := true;
    }

    /** bdw_wbox_setup: the occupancy filter is cleared when no option set it. */
    method WboxSetup(cpu: nat, index: nat, e: PerfmonEvent) returns (status: Status)
      requires KnownCpu(p, cpu) && index in p.counterMap
      modifies this
      ensures socketLock == old(socketLock) && tileLock == old(tileLock)
      ensures Ran(status, State()) ==
        RunPlan(p, old(State()), cpu, index,
                WboxPlan(old(Owner(cpu)), cpu, p.counterMap[index], Box(p, p.counterMap[index].regType), e, old(Cached(State(), cpu, index))))
    {
      if !Owner(cpu) {
        RunSkip(p, State(), cpu, index, Ok);
        return Ok;
      }
      ghost var c0 := State();
      var cm := p.counterMap[index];
      var box := Box(p, cm.regType);
      var k := RegKey(cpu, MsrDev, Addr(box.filterRegister1));
      var key := RegKey(cpu, MsrDev, Addr(cm.configRegister));
      var flags := WboxFlags(e);
      RunOnChange(p, c0, cpu, index, key, flags, Cached(c0, cpu, index), WboxAux(k, e.options));
      var ok := WboxFilterBlock(k, e.options);
      if !ok {
        return AccessError;
      }
      status := Commit(cpu, index, key, flags);
    }

    /** The filter block of bdw_wbox_setup: the option loop, then the clearing write. */
    method WboxFilterBlock(k: RegKey, opts: seq<EventOption>) returns (ok: bool)
      modifies this
      ensures config == old(config) && socketLock == old(socketLock) && tileLock == old(tileLock)
      ensures Exec(ok, State()) == Writes(p, old(State()), WboxAux(k, opts))
    {
      ghost var c0 := State();
      ghost var filters := WboxFilterWrites(k, opts);
      ghost var tail: seq<Access> := if !HasOption(opts, OccupancyFilter) then [Access(k, 0)] else [];
      WritesAppend(p, c0, filters, tail);
      var clean;
      ok, clean := WboxFilters(k, opts);
      if ok && clean {
        WritesShort(p, State(), Access(k, 0), Access(k, 0));
        ok := HpmWrite(k, 0);
      }
    }

    /** The option loop of bdw_bbox_setup: each OPCODE and MATCH0 option is written as it comes. */
    method BboxOptions(cpu: nat, dev: Device, opts: seq<EventOption>) returns (ok: bool, opcodeFlag: bool, matchFlag: bool)
      modifies this
      ensures config == old(config) && socketLock == old(socketLock) && tileLock == old(tileLock)
      ensures Exec(ok, State()) == Writes(p, old(State()), BboxMatchWrites(cpu, dev, opts))
      ensures ok ==> opcodeFlag == HasOption(opts, Opcode) && matchFlag == HasOption(opts, Match0)
    {
      ghost var c0 := State();
      ghost var g := o => BboxMatchWrite(cpu, dev, o);
      opcodeFlag, matchFlag := false, false;
      var j := 0;
      while j < |opts|
        invariant 0 <= j <= |opts|
        invariant opcodeFlag == HasOption(opts[..j], Opcode) && matchFlag == HasOption(opts[..j], Match0)
        invariant Writes(p, c0, ConcatMap(g, opts[..j])) == Exec(true, State())
        invariant config == c0.config && socketLock == c0.socketLock && tileLock == c0.tileLock
      {
        assert opts[..j + 1][..j] == opts[..j];
        ConcatMapStep(g, opts, j);
        var o := opts[j];
        WritesAppend(p, c0, ConcatMap(g, opts[..j]), g(o));
        ok := WriteAll(BboxMatchWrite(cpu, dev, o));
        if !ok {
          ConcatMapPrefix(g, opts, j + 1);
          WritesPrefixFails(p, c0, ConcatMap(g, opts[..j + 1]), ConcatMap(g, opts));
          return;
        }
        if o.kind == Opcode {
          opcodeFlag := true;
        } else if o.kind == Match0 {
          matchFlag := true;
        }
        j := j + 1;
      }
      assert opts[..j] == opts;
      ok := true;
    }

    /** bdw_bbox_setup: the match registers no option set are cleared. */
    method BboxSetup(cpu: nat, index: nat, e: PerfmonEvent) returns (status: Status)
      requires KnownCpu(p, cpu) && index in p.counterMap
      modifies this
      ensures socketLock == old(socketLock) && tileLock == old(tileLock)
      ensures Ran(status, State()) ==
        RunPlan(p, old(State()), cpu, index,
                BboxPlan(old(Owner(cpu)), DevicePresent(p, p.counterMap[index].device, cpu), cpu, p.counterMap[index], e, old(Cached(State(), cpu, index))))
    {
      var cm := p.counterMap[index];
      var dev := cm.device;
      if !Owner(cpu) {
        RunSkip(p, State(), cpu, index, Ok);
        return Ok;
      }
      if (dev, cpu) !in p.present {
        RunSkip(p, State(), cpu, index, NoDevice);
        return NoDevice;
      }
      ghost var c0 := State();
      var key := RegKey(cpu, dev, Addr(cm.configRegister));
      var flags := BoxFlags(e);
      RunTwoPhase(p, c0, cpu, index, key, flags, Cached(c0, cpu, index),
                  BboxMatchWrites(cpu, dev, e.options) + BboxClearWrites(cpu, dev, e.options));
      var ok := BboxMatchBlock(cpu, dev, e.options);
      if !ok {
        return AccessError;
      }
      status := CommitTwice(cpu, index, key, flags);
    }

    /** The match block of bdw_bbox_setup: the option loop, then the clearing of the registers no option set. */
    method BboxMatchBlock(cpu: nat, dev: Device, opts: seq<EventOption>) returns (ok: bool)
      modifies this
      ensures config == old(config) && socketLock == old(socketLock) && tileLock == old(tileLock)
      ensures Exec(ok, State()) == Writes(p, old(State()), BboxMatchWrites(cpu, dev, opts) + BboxClearWrites(cpu, dev, opts))
    {
      ghost var c0 := State();
      ghost var matches := BboxMatchWrites(cpu, dev, opts);
      ghost var clears := BboxClearWrites(cpu, dev, opts);
      WritesAppend(p, c0, matches, clears);
      var opcodeFlag, matchFlag;
      ok, opcodeFlag, matchFlag := BboxOptions(cpu, dev, opts);
      if ok {
        var ws := (if !opcodeFlag then [Access(RegKey(cpu, dev, HaOpcodeMatch), 0)] else [])
                  + (if !matchFlag then [Access(RegKey(cpu, dev, HaAddrMatch0), 0), Access(RegKey(cpu, dev, HaAddrMatch1), 0)] else []);
        assert ws == clears;
        ok := WriteAll(ws);
      }
    }

    /** bdw_mbox_setup; bdw_ibox_setup and bdw_pbox_setup run the same code. */
    method BoxSetup(cpu: nat, index: nat, e: PerfmonEvent) returns (status: Status)
      requires KnownCpu(p, cpu) && index in p.counterMap
      modifies this
      ensures socketLock == old(socketLock) && tileLock == old(tileLock)
      ensures Ran(status, State()) ==
        RunPlan(p, old(State()), cpu, index,
                TwoPhaseBoxPlan(old(Owner(cpu)), DevicePresent(p, p.counterMap[index].device, cpu), cpu, p.counterMap[index], e, old(Cached(State(), cpu, index))))
    {
      var cm := p.counterMap[index];
      if !Owner(cpu) {
        RunSkip(p, State(), cpu, index, Ok);
        return Ok;
      }
      if (cm.device, cpu) !in p.present {
        RunSkip(p, State(), cpu, index, NoDevice);
        return NoDevice;
      }
      var flags := BoxFlags(e);
      status := CommitTwice(cpu, index, RegKey(cpu, cm.device, Addr(cm.configRegister)), flags);
    }

    /** bdw_mboxfix_setup */
    method MboxFixSetup(cpu: nat, index: nat, e: PerfmonEvent) returns (status: Status)
      requires KnownCpu(p, cpu) && index in p.counterMap
      modifies this
      ensures socketLock == old(socketLock) && tileLock == old(tileLock)
      ensures Ran(status, State()) ==
        RunPlan(p, old(State()), cpu, index,
                MboxFixPlan(old(Owner(cpu)), DevicePresent(p, p.counterMap[index].device, cpu), cpu, p.counterMap[index], e, old(Cached(State(), cpu, index))))
    {
      var cm := p.counterMap[index];
      if !Owner(cpu) {
        RunSkip(p, State(), cpu, index, Ok);
        return Ok;
      }
      if (cm.device, cpu) !in p.present {
        RunSkip(p, State(), cpu, index, NoDevice);
        return NoDevice;
      }
      var flags := MboxFixFlags(e);
      status := Commit(cpu, index, RegKey(cpu, cm.device, Addr(cm.configRegister)), flags);
    }
  
    // ---------------------------------------------------------------- phases

    /** perfmon_init_broadwell */
    method Init(cpu: nat) returns (status: Status)
      requires KnownCpu(p, cpu)
      modifies this
      ensures Ran(status, State()) == InitSpec(p, old(State()), cpu)
    {
      if p.tileOf[cpu] !in tileLock {
        tileLock := tileLock[p.tileOf[cpu] := cpu];
      }
      if p.socketOf[cpu] !in socketLock {
        socketLock := socketLock[p.socketOf[cpu] := cpu];
      }
      var ok := HpmWrite(Msr(cpu, PebsEnable), 0);
      status := OkStatus(ok);
    }

    /** The switch of setup's loop over the encoder-backed types. */
    method Encode(cpu: nat, owner: bool, e: EventEntry) returns (status: Status)
      requires KnownCpu(p, cpu) && e.index in p.counterMap && owner == Owner(cpu)
      modifies this
      ensures socketLock == old(socketLock) && tileLock == old(tileLock)
      ensures Ran(status, State()) == RunPlan(p, old(State()), cpu, e.index, EncoderPlan(p, old(State()), cpu, owner, e))
    {
      if e.regType.Pmc? || e.regType.Ubox? || e.regType.Cbox? || e.regType.Wbox? {
        status := EncodeCore(cpu, owner, e);
      } else {
        status := EncodeBox(cpu, owner, e);
      }
    }

    /** The encoders of the core counters, the Ubox and the per-slice boxes. */
    method EncodeCore(cpu: nat, owner: bool, e: EventEntry) returns (status: Status)
      requires KnownCpu(p, cpu) && e.index in p.counterMap && owner == Owner(cpu)
      requires e.regType.Pmc? || e.regType.Ubox? || e.regType.Cbox? || e.regType.Wbox?
      modifies this
      ensures socketLock == old(socketLock) && tileLock == old(tileLock)
      ensures Ran(status, State()) == RunPlan(p, old(State()), cpu, e.index, EncoderPlan(p, old(State()), cpu, owner, e))
    {
      match e.regType
      case Pmc => status := PmcSetup(cpu, e.index, e.event);
      case Ubox => status := UboxSetup(cpu, e.index, e.event);
      case Cbox(_) => status := CboxSetup(cpu, e.index, e.event);
      case Wbox => status := WboxSetup(cpu, e.index, e.event);
    }

    /** The encoders of the socket-wide PCI and MSR boxes; other types have no encoder. */
    method EncodeBox(cpu: nat, owner: bool, e: EventEntry) returns (status: Status)
      requires KnownCpu(p, cpu) && e.index in p.counterMap && owner == Owner(cpu)
      requires !(e.regType.Pmc? || e.regType.Ubox? || e.regType.Cbox? || e.regType.Wbox?)
      modifies this
      ensures socketLock == old(socketLock) && tileLock == old(tileLock)
      ensures Ran(status, State()) == RunPlan(p, old(State()), cpu, e.index, EncoderPlan(p, old(State()), cpu, owner, e))
    {
      match e.regType
      case Bbox(_) => status := BboxSetup(cpu, e.index, e.event);
      case Mbox(_) => status := BoxSetup(cpu, e.index, e.event);
      case Ibox(_) => status := BoxSetup(cpu, e.index, e.event);
      case Pbox => status := BoxSetup(cpu, e.index, e.event);
      case MboxFix(_) => status := MboxFixSetup(cpu, e.index, e.event);
      case _ =>
        RunSkip(p, State(), cpu, e.index, Ok);
        status := Ok;
    }

    /** One iteration of setup's loop; `fixed` gathers the FIXED_CTR_CTRL bits. */
    method SetupStep(cpu: nat, owner: bool, mask: set<RegisterType>, e: EventEntry, i: nat, tcs: array<ThreadCounter>, fixed: bv64)
      returns (ok: bool, fixed': bv64)
      requires KnownCpu(p, cpu) && e.index in p.counterMap && i < tcs.Length && owner == Owner(cpu)
      modifies this, tcs
      ensures socketLock == old(socketLock) && tileLock == old(tileLock)
      ensures Acc(ok, State(), tcs[..], fixed') == SetupEntry(p, Acc(true, old(State()), old(tcs[..]), fixed), cpu, owner, mask, e, i)
    {
      ok, fixed' := true, fixed;
      if e.regType !in mask {
        return;
      }
      ghost var ts := tcs[..];
      tcs[i] := tcs[i].(init := true);
      assert tcs[..] == ts[i := ts[i].(init := true)];
      ok, fixed' := SetupWork(cpu, owner, mask, e, i, ts, fixed);
    }

    /** The register work of one setup iteration for an entry of a type in the mask. */
    method SetupWork(cpu: nat, owner: bool, mask: set<RegisterType>, e: EventEntry, i: nat, ghost ts: seq<ThreadCounter>, fixed: bv64)
      returns (ok: bool, fixed': bv64)
      requires KnownCpu(p, cpu) && e.index in p.counterMap && i < |ts| && owner == Owner(cpu) && e.regType in mask
      modifies this
      ensures socketLock == old(socketLock) && tileLock == old(tileLock)
      ensures Acc(ok, State(), ts[i := ts[i].(init := true)], fixed') == SetupEntry(p, Acc(true, old(State()), ts, fixed), cpu, owner, mask, e, i)
    {
      if e.regType == Fixed {
        fixed' := FixedWork(cpu, mask, e, i, ts, fixed);
        ok := true;
      } else if e.regType == UboxFix {
        ok := UboxFixWork(cpu, owner, mask, e, i, ts, fixed);
        fixed' := fixed;
      } else {
        EncodeWork(cpu, owner, mask, e, i, ts, fixed);
        ok, fixed' := true, fixed;
      }
    }

    method FixedWork(cpu: nat, mask: set<RegisterType>, e: EventEntry, i: nat, ghost ts: seq<ThreadCounter>, fixed: bv64)
      returns (fixed': bv64)
      requires e.index in p.counterMap && i < |ts| && e.regType == Fixed && e.regType in mask
      modifies this
      ensures socketLock == old(socketLock) && tileLock == old(tileLock)
      ensures Acc(true, State(), ts[i := ts[i].(init := true)], fixed') == SetupEntry(p, Acc(true, old(State()), ts, fixed), cpu, false, mask, e, i)
    {
      ghost var a := Acc(true, State(), ts, fixed);
      ghost var fw := FixedWord(e.index, e.event.options);
      ghost var changed := fw != Cached(a.ctx, cpu, e.index);
      if changed {
        SetupFixedChanged(p, a, cpu, false, mask, e, i);
      } else {
        SetupFixedSame(p, a, cpu, false, mask, e, i);
      }
      var w := FixedSetup(cpu, e.index, e.event.options);
      fixed' := fixed | w;
      if changed {
        assert w == fw && State() == a.ctx.(config := a.ctx.config[(cpu, e.index) := fw]);
      } else {
        assert w == 0 && State() == a.ctx;
        assert fixed | 0 == fixed;
      }
    }

    method UboxFixWork(cpu: nat, owner: bool, mask: set<RegisterType>, e: EventEntry, i: nat, ghost ts: seq<ThreadCounter>, fixed: bv64)
      returns (ok: bool)
      requires e.index in p.counterMap && i < |ts| && e.regType == UboxFix && e.regType in mask
      modifies this
      ensures socketLock == old(socketLock) && tileLock == old(tileLock)
      ensures Acc(ok, State(), ts[i := ts[i].(init := true)], fixed) == SetupEntry(p, Acc(true, old(State()), ts, fixed), cpu, owner, mask, e, i)
    {
      ok := true;
      if owner {
        ok := HpmWrite(Msr(cpu, Addr(p.counterMap[e.index].configRegister)), UboxFixWord);
      }
    }

    method EncodeWork(cpu: nat, owner: bool, mask: set<RegisterType>, e: EventEntry, i: nat, ghost ts: seq<ThreadCounter>, fixed: bv64)
      requires KnownCpu(p, cpu) && e.index in p.counterMap && i < |ts| && owner == Owner(cpu)
      requires e.regType != Fixed && e.regType != UboxFix && e.regType in mask
      modifies this
      ensures socketLock == old(socketLock) && tileLock == old(tileLock)
      ensures Acc(true, State(), ts[i := ts[i].(init := true)], fixed) == SetupEntry(p, Acc(true, old(State()), ts, fixed), cpu, owner, mask, e, i)
    {
      var _ := Encode(cpu, owner, e);
    }

    /** perfmon_setupCounterThread_broadwell */
    method Setup(cpu: nat, mask: set<RegisterType>, es: seq<EventEntry>, tcs: array<ThreadCounter>) returns (status: Status)
      requires PhaseArgs(p, cpu, es, tcs[..])
      modifies this, tcs
      ensures Outcome(status, State(), tcs[..]) == SetupSpec(p, old(State()), cpu, mask, es, old(tcs[..]))
    {
      var owner := Owner(cpu);
      var ok := WriteAll(SetupHead(cpu, owner, mask));
      if !ok {
        return AccessError;
      }
      var fixed;
      ok, fixed := SetupAll(cpu, owner, mask, es, tcs);
      if !ok {
        return AccessError;
      }
      status := Ok;
      if fixed != 0 {
        ok := HpmWrite(Msr(cpu, FixedCtrCtrl), fixed);
        status := OkStatus(ok);
      }
    }

    /** The loop of setup: `fixed` is the FIXED_CTR_CTRL word it gathers. */
    method SetupAll(cpu: nat, owner: bool, mask: set<RegisterType>, es: seq<EventEntry>, tcs: array<ThreadCounter>)
      returns (ok: bool, fixed: bv64)
      requires KnownCpu(p, cpu) && EntriesMapped(p, es) && tcs.Length == |es| && owner == Owner(cpu)
      modifies this, tcs
      ensures socketLock == old(socketLock) && tileLock == old(tileLock)
      ensures Acc(ok, State(), tcs[..], fixed) == SetupLoop(p, Acc(true, old(State()), old(tcs[..]), 0), cpu, owner, mask, es, |es|)
    {
      ghost var c0 := State();
      ghost var t0 := tcs[..];
      ok, fixed := true, 0;
      var i := 0;
      while ok && i < |es|
        invariant 0 <= i <= |es| && socketLock == old(socketLock) && tileLock == old(tileLock)
        invariant SetupLoop(p, Acc(true, c0, t0, 0), cpu, owner, mask, es, i) == Acc(ok, State(), tcs[..], fixed)
      {
        ok, fixed := SetupStep(cpu, owner, mask, es[i], i, tcs, fixed);
        i := i + 1;
      }
      if !ok {
        SetupStuck(p, Acc(true, c0, t0, 0), cpu, owner, mask, es, i, |es|);
      }
    }

    /** One iteration of start's loop; `bit` is what it ORs into the enable mask. */
    method StartStep(cpu: nat, owner: bool, mask: set<RegisterType>, e: EventEntry, i: nat, tcs: array<ThreadCounter>)
      returns (ok: bool, bit: bv64)
      requires e.index in p.counterMap && i < tcs.Length
      modifies this, tcs
      ensures socketLock == old(socketLock) && tileLock == old(tileLock)
      ensures Acc(ok, State(), tcs[..], 0) == StartEntry(p, Acc(true, old(State()), old(tcs[..]), 0), cpu, owner, mask, e, i)
      ensures ok ==> bit == EntryEnable(p, e, old(tcs[i]), mask)
    {
      ok, bit := true, 0;
      if !tcs[i].init || e.regType !in mask {
        return;
      }
      ghost var ts := tcs[..];
      var t;
      ok, bit, t := StartWork(cpu, owner, mask, e, i, ts, tcs[i]);
      tcs[i] := t;
      assert tcs[..] == ts[i := t];
    }

    /** The register work of one start iteration for an initialised entry of a type in the mask. */
    method StartWork(cpu: nat, owner: bool, mask: set<RegisterType>, e: EventEntry, i: nat, ghost ts: seq<ThreadCounter>, t: ThreadCounter)
      returns (ok: bool, bit: bv64, t': ThreadCounter)
      requires e.index in p.counterMap && i < |ts| && ts[i] == t && t.init && e.regType in mask
      modifies this
      ensures socketLock == old(socketLock) && tileLock == old(tileLock)
      ensures Acc(ok, State(), ts[i := t'], 0) == StartEntry(p, Acc(true, old(State()), ts, 0), cpu, owner, mask, e, i)
      ensures ok ==> bit == EnableBit(p, e)
    {
      var cm := p.counterMap[e.index];
      var k := RegKey(cpu, cm.device, Addr(cm.counterRegister));
      ok, bit := true, 0;
      t' := t.(startData := 0, counterData := 0, fullData := 0);
      if e.regType == Pmc || e.regType == Fixed {
        ok := HpmWrite(k, 0);
        bit := if e.regType == Pmc then Bit(e.index - p.numFixed) else Bit(e.index + 32);
      } else if e.regType == Power && owner {
        var v;
        ok, v := HpmRead(PowerKey(cpu, cm));
        if ok {
          t' := t'.(startData := LowBits(LowBits(v, 32), Box(p, Power).regWidth));
        }
      } else if e.regType == Wbox0Fix && owner {
        var v;
        ok, v := HpmRead(k);
        if ok {
          t' := t'.(startData := LowBits(v, Box(p, Wbox0Fix).regWidth));
        }
      }
    }

    /** The counter clears BDW_UNFREEZE_UNCORE_AND_RESET_CTR does for one entry. */
    method ResetStep(cpu: nat, e: EventEntry) returns (ok: bool)
      requires e.index in p.counterMap
      modifies this
      ensures config == old(config) && socketLock == old(socketLock) && tileLock == old(tileLock)
      ensures Exec(ok, State()) == Writes(p, old(State()), ResetEntry(p, cpu, e))
    {
      var cm := p.counterMap[e.index];
      ok := true;
      if IsCoreType(cm.regType) || cm.regType == Wbox0Fix || (cm.device, cpu) !in p.present {
        return;
      }
      var k1 := RegKey(cpu, cm.device, Addr(cm.counterRegister));
      var k2 := RegKey(cpu, cm.device, Addr(cm.counterRegister2));
      WritesShort(p, State(), Access(k1, 0), Access(k2, 0));
      ok := HpmWrite(k1, 0);
      if ok && cm.counterRegister2 != 0 {
        ok := HpmWrite(k2, 0);
      }
    }

    /** The loop of BDW_UNFREEZE_UNCORE_AND_RESET_CTR: clear the counters of every uncore entry whose device is present. */
    method ResetAll(cpu: nat, es: seq<EventEntry>) returns (ok: bool)
      requires EntriesMapped(p, es)
      modifies this
      ensures config == old(config) && socketLock == old(socketLock) && tileLock == old(tileLock)
      ensures Exec(ok, State()) == Writes(p, old(State()), ResetCounters(p, cpu, es))
    {
      var j := 0;
      while j < |es|
        invariant 0 <= j <= |es|
        invariant config == old(config) && socketLock == old(socketLock) && tileLock == old(tileLock)
        invariant Writes(p, old(State()), ResetCounters(p, cpu, es[..j])) == Exec(true, State())
      {
        assert es[..j + 1][..j] == es[..j];
        WritesAppend(p, old(State()), ResetCounters(p, cpu, es[..j]), ResetEntry(p, cpu, es[j]));
        ok := ResetStep(cpu, es[j]);
        if !ok {
          ResetPrefix(p, cpu, es, j + 1);
          WritesPrefixFails(p, old(State()), ResetCounters(p, cpu, es[..j + 1]), ResetCounters(p, cpu, es));
          return;
        }
        j := j + 1;
      }
      assert es[..j] == es;
      ok := true;
    }

    /** BDW_UNFREEZE_UNCORE_AND_RESET_CTR */
    method UnfreezeAndResetAll(cpu: nat, owner: bool, mask: set<RegisterType>, es: seq<EventEntry>) returns (ok: bool)
      requires EntriesMapped(p, es)
      modifies this
      ensures config == old(config) && socketLock == old(socketLock) && tileLock == old(tileLock)
      ensures Exec(ok, State()) == Writes(p, old(State()), UnfreezeAndReset(p, cpu, owner, mask, es))
    {
      ok := true;
      if owner && HasUncore(mask) {
        var u := Access(Msr(cpu, UncoreGlobalCtl), Bit(29));
        WritesAppend(p, State(), ResetCounters(p, cpu, es), [u]);
        ok := ResetAll(cpu, es);
        if ok {
          WritesShort(p, State(), u, u);
          ok := HpmWrite(u.key, u.value);
        }
      }
    }

    /** The loop of perfmon_startCountersThread_broadwell, with the enable mask it gathers. */
    method StartAll(cpu: nat, owner: bool, mask: set<RegisterType>, es: seq<EventEntry>, tcs: array<ThreadCounter>)
      returns (ok: bool, flags: bv64)
      requires EntriesMapped(p, es) && tcs.Length == |es|
      modifies this, tcs
      ensures socketLock == old(socketLock) && tileLock == old(tileLock)
      ensures Acc(ok, State(), tcs[..], 0) == StartLoop(p, Acc(true, old(State()), old(tcs[..]), 0), cpu, owner, mask, es, |es|)
      ensures ok ==> flags == EnableMask(p, es, old(tcs[..]), mask, |es|)
    {
      ghost var c0 := State();
      ghost var t0 := tcs[..];
      ok, flags := true, 0;
      var i := 0;
      while ok && i < |es|
        invariant 0 <= i <= |es| && socketLock == old(socketLock) && tileLock == old(tileLock)
        invariant StartLoop(p, Acc(true, c0, t0, 0), cpu, owner, mask, es, i) == Acc(ok, State(), tcs[..], 0)
        invariant ok ==> flags == EnableMask(p, es, t0, mask, i)
      {
        assert tcs[..][i] == t0[i];
        var bit;
        ok, bit := StartStep(cpu, owner, mask, es[i], i, tcs);
        if ok {
          EnableMaskNext(p, es, t0, mask, i, flags, bit);
        }
        flags := flags | bit;
        i := i + 1;
      }
      if !ok {
        StartStuck(p, Acc(true, c0, t0, 0), cpu, owner, mask, es, i, |es|);
      }
    }

    /** perfmon_startCountersThread_broadwell */
    method Start(cpu: nat, mask: set<RegisterType>, es: seq<EventEntry>, tcs: array<ThreadCounter>) returns (status: Status)
      requires PhaseArgs(p, cpu, es, tcs[..])
      modifies this, tcs
      ensures Outcome(status, State(), tcs[..]) == StartSpec(p, old(State()), cpu, mask, es, old(tcs[..]))
    {
      var owner := Owner(cpu);
      var ok, flags := StartAll(cpu, owner, mask, es, tcs);
      if !ok {
        return AccessError;
      }
      ok := UnfreezeAndResetAll(cpu, owner, mask, es);
      if !ok {
        return AccessError;
      }
      ok := WriteAll(StartCore(cpu, mask, flags));
      status := OkStatus(ok);
    }
  
    // ------------------------------------------------------- counter reading

    /** Read a PMC or FIXED counter, then BDW_CHECK_CORE_OVERFLOW(offset). */
    method ReadCore(cpu: nat, cm: CounterMapEntry, tc: ThreadCounter, offset: int) returns (ok: bool, tc': ThreadCounter, v: bv64)
      modifies this
      ensures config == old(config) && socketLock == old(socketLock) && tileLock == old(tileLock)
      ensures Sample(ok, State(), tc', v) == CoreRead(p, old(State()), cpu, cm, tc, offset)
    {
      tc' := tc;
      ok, v := HpmRead(Msr(cpu, Addr(cm.counterRegister)));
      if !ok {
        return false, tc, 0;
      }
      if Below(v, tc.counterData) {
        var ovf;
        ok, ovf := HpmRead(Msr(cpu, PerfGlobalStatus));
        if !ok {
          return;
        }
        if IsSet(ovf, offset) {
          tc' := tc.(overflows := tc.overflows + 1);
        }
        ok := HpmWrite(Msr(cpu, PerfGlobalOvfCtrl), Bit(offset));
      }
    }

    /** power_read, and the overflow count of a POWER counter. */
    method ReadPower(cpu: nat, cm: CounterMapEntry, tc: ThreadCounter) returns (ok: bool, tc': ThreadCounter, v: bv64)
      ensures Sample(ok, State(), tc', v) == PowerRead(p, State(), cpu, cm, tc)
    {
      tc' := tc;
      ok, v := HpmRead(PowerKey(cpu, cm));
      if !ok {
        return false, tc, 0;
      }
      v := LowBits(v, 32);
      if Below(v, tc.counterData) {
        tc' := tc.(overflows := tc.overflows + 1);
      }
    }

    /** thermal_read */
    method ReadThermal(cpu: nat, tc: ThreadCounter) returns (ok: bool, v: bv64)
      ensures Sample(ok, State(), tc, v) == ThermalRead(p, State(), cpu, tc)
    {
      ok, v := HpmRead(Msr(cpu, ThermalSensor));
      if !ok {
        return false, 0;
      }
      v := LowBits(v, 32);
    }

    /** The counter read of bdw_uncore_read: one or two registers, each cleared after it is read when `clear`. */
    method ReadRaw(cpu: nat, cm: CounterMapEntry, clear: bool) returns (ok: bool, v: bv64)
      modifies this
      ensures config == old(config) && socketLock == old(socketLock) && tileLock == old(tileLock)
      ensures Raw(ok, State(), v) == UncoreRaw(p, old(State()), cpu, cm, clear)
    {
      var k1 := RegKey(cpu, cm.device, Addr(cm.counterRegister));
      ok, v := HpmRead(k1);
      if !ok {
        return false, 0;
      }
      if clear {
        ok := HpmWrite(k1, 0);
        if !ok {
          return false, 0;
        }
      }
      if cm.counterRegister2 != 0 {
        var k2 := RegKey(cpu, cm.device, Addr(cm.counterRegister2));
        var lo;
        ok, lo := HpmRead(k2);
        if !ok {
          return false, 0;
        }
        v := Join(v, lo);
        if clear {
          ok := HpmWrite(k2, 0);
        }
      }
    }

    /** The global overflow test of bdw_uncore_read: whether the box status is to be looked at. */
    method ProbeGlobal(cpu: nat, box: BoxEntry) returns (ok: bool, testLocal: bool)
      modifies this
      ensures config == old(config) && socketLock == old(socketLock) && tileLock == old(tileLock)
      ensures Probe(ok, State(), testLocal) == GlobalProbe(p, old(State()), cpu, box)
    {
      if box.ovflOffset == -1 {
        return true, true;
      }
      var ks := Msr(cpu, UncoreGlobalStatus);
      var ovf;
      ok, ovf := HpmRead(ks);
      if !ok {
        return false, false;
      }
      testLocal := false;
      if Meets(ovf, IntBit(box.ovflOffset)) {
        ok := HpmWrite(ks, IntBit(box.ovflOffset));
        testLocal := true;
      }
    }

    /** The box overflow test of bdw_uncore_read. */
    method ProbeBox(cpu: nat, cm: CounterMapEntry, box: BoxEntry, boxOffset: int, overflows: nat) returns (status: Status, overflows': nat)
      modifies this
      ensures config == old(config) && socketLock == old(socketLock) && tileLock == old(tileLock)
      ensures UncoreResult(status, State(), 0, overflows') == BoxProbe(p, old(State()), cpu, cm, box, boxOffset, overflows)
    {
      var kb := RegKey(cpu, cm.device, Addr(box.statusRegister));
      var ok, ovf := HpmRead(kb);
      if !ok {
        return AccessError, overflows;
      }
      overflows' := overflows;
      status := Ok;
      if Meets(ovf, IntBit(boxOffset)) {
        overflows' := overflows + 1;
        ok := HpmWrite(kb, IntBit(boxOffset));
        status := OkStatus(ok);
      }
    }

    /** bdw_uncore_read */
    method ReadUncore(cpu: nat, owner: bool, cm: CounterMapEntry, cur: bv64, overflows: nat, clear: bool, boxOffset: int)
      returns (status: Status, cur': bv64, overflows': nat)
      modifies this
      ensures config == old(config) && socketLock == old(socketLock) && tileLock == old(tileLock)
      ensures UncoreResult(status, State(), cur', overflows') == UncoreRead(p, old(State()), cpu, owner, cm, cur, overflows, clear, boxOffset)
    {
      cur', overflows' := cur, overflows;
      if !owner {
        return Ok, cur, overflows;
      }
      var box := Box(p, cm.regType);
      var ok, raw := ReadRaw(cpu, cm, clear);
      if !ok {
        return AccessError, cur, overflows;
      }
      var result := LowBits(raw, box.regWidth);
      if Below(result, cur) {
        var testLocal;
        ok, testLocal := ProbeGlobal(cpu, box);
        if !ok {
          return AccessError, cur, overflows;
        }
        if testLocal {
          status, overflows' := ProbeBox(cpu, cm, box, boxOffset, overflows);
          if status == AccessError {
            return;
          }
        }
      }
      return Ok, result, overflows';
    }

    /** The switch of stop's and read's loop for one entry. */
    method ReadSwitch(cpu: nat, owner: bool, e: EventEntry, tc: ThreadCounter, clear: bool) returns (ok: bool, tc': ThreadCounter, v: bv64)
      requires e.index in p.counterMap
      modifies this
      ensures config == old(config) && socketLock == old(socketLock) && tileLock == old(tileLock)
      ensures Sample(ok, State(), tc', v) == ReadSample(p, old(State()), cpu, owner, e, tc, clear)
    {
      var cm := p.counterMap[e.index];
      ok, tc', v := true, tc, 0;
      match e.regType {
      case Pmc => ok, tc', v := ReadCore(cpu, cm, tc, e.index - p.numFixed);
      case Fixed => ok, tc', v := ReadCore(cpu, cm, tc, e.index + 32);
      case Power =>
        if owner {
          ok, tc', v := ReadPower(cpu, cm, tc);
        }
      case Thermal => ok, v := ReadThermal(cpu, tc);
      case _ =>
        if ReadsUncore(e.regType) {
          var _, cur, ovf := ReadUncore(cpu, owner, cm, tc.counterData, tc.overflows, clear, BoxOffset(e.regType, cm.typeOffset));
          tc' := tc.(counterData := cur, overflows := ovf);
        }
      }
    }

    /** One entry of stop's and read's loop: the switch, then the store of `counter_result`. */
    method ReadCounter(cpu: nat, owner: bool, e: EventEntry, tc: ThreadCounter, clear: bool) returns (ok: bool, tc': ThreadCounter, v: bv64)
      requires e.index in p.counterMap
      modifies this
      ensures config == old(config) && socketLock == old(socketLock) && tileLock == old(tileLock)
      ensures Sample(ok, State(), tc', v) == ReadEntry(p, old(State()), cpu, owner, e, tc, clear)
    {
      ok, tc', v := ReadSwitch(cpu, owner, e, tc, clear);
      if ok {
        tc' := tc'.(counterData := LowBits(v, Box(p, e.regType).regWidth));
      }
    }

    // ------------------------------------------------------------------ stop

    /** One iteration of stop's loop. */
    method StopStep(cpu: nat, owner: bool, mask: set<RegisterType>, e: EventEntry, i: nat, tcs: array<ThreadCounter>) returns (ok: bool)
      requires e.index in p.counterMap && i < tcs.Length
      modifies this, tcs
      ensures socketLock == old(socketLock) && tileLock == old(tileLock)
      ensures Acc(ok, State(), tcs[..], 0) == StopEntry(p, Acc(true, old(State()), old(tcs[..]), 0), cpu, owner, mask, e, i)
    {
      if !tcs[i].init || e.regType !in mask {
        return true;
      }
      var t, v;
      ok, t, v := ReadCounter(cpu, owner, e, tcs[i], true);
      tcs[i] := if ok then t.(init := false) else t;
    }

    /** The loop of perfmon_stopCountersThread_broadwell. */
    method StopAll(cpu: nat, owner: bool, mask: set<RegisterType>, es: seq<EventEntry>, tcs: array<ThreadCounter>) returns (ok: bool)
      requires EntriesMapped(p, es) && tcs.Length == |es|
      modifies this, tcs
      ensures socketLock == old(socketLock) && tileLock == old(tileLock)
      ensures Acc(ok, State(), tcs[..], 0) == StopLoop(p, Acc(true, old(State()), old(tcs[..]), 0), cpu, owner, mask, es, |es|)
    {
      ghost var c0 := State();
      ghost var t0 := tcs[..];
      ok := true;
      var i := 0;
      while ok && i < |es|
        invariant 0 <= i <= |es| && socketLock == old(socketLock) && tileLock == old(tileLock)
        invariant StopLoop(p, Acc(true, c0, t0, 0), cpu, owner, mask, es, i) == Acc(ok, State(), tcs[..], 0)
      {
        ok := StopStep(cpu, owner, mask, es[i], i, tcs);
        i := i + 1;
      }
      if !ok {
        StopStuck(p, Acc(true, c0, t0, 0), cpu, owner, mask, es, i, |es|);
      }
    }

    /** perfmon_stopCountersThread_broadwell */
    method Stop(cpu: nat, mask: set<RegisterType>, es: seq<EventEntry>, tcs: array<ThreadCounter>) returns (status: Status)
      requires PhaseArgs(p, cpu, es, tcs[..])
      modifies this, tcs
      ensures Outcome(status, State(), tcs[..]) == StopSpec(p, old(State()), cpu, mask, es, old(tcs[..]))
    {
      var owner := Owner(cpu);
      var ok := WriteAll(StopHead(cpu, owner, mask));
      if !ok {
        return AccessError;
      }
      ok := StopAll(cpu, owner, mask, es, tcs);
      status := OkStatus(ok);
    }

    // ------------------------------------------------------------------ read

    /** One iteration of read's loop. */
    method ReadStep(cpu: nat, owner: bool, mask: set<RegisterType>, e: EventEntry, i: nat, tcs: array<ThreadCounter>) returns (ok: bool)
      requires e.index in p.counterMap && i < tcs.Length
      modifies this, tcs
      ensures socketLock == old(socketLock) && tileLock == old(tileLock)
      ensures Acc(ok, State(), tcs[..], 0) == ReadLoopEntry(p, Acc(true, old(State()), old(tcs[..]), 0), cpu, owner, mask, e, i)
    {
      if !tcs[i].init || e.regType !in mask {
        return true;
      }
      var t, v;
      ok, t, v := ReadCounter(cpu, owner, e, tcs[i], false);
      tcs[i] := t;
    }

    /** The loop of perfmon_readCountersThread_broadwell. */
    method ReadAll(cpu: nat, owner: bool, mask: set<RegisterType>, es: seq<EventEntry>, tcs: array<ThreadCounter>) returns (ok: bool)
      requires EntriesMapped(p, es) && tcs.Length == |es|
      modifies this, tcs
      ensures socketLock == old(socketLock) && tileLock == old(tileLock)
      ensures Acc(ok, State(), tcs[..], 0) == ReadLoop(p, Acc(true, old(State()), old(tcs[..]), 0), cpu, owner, mask, es, |es|)
    {
      ghost var c0 := State();
      ghost var t0 := tcs[..];
      ok := true;
      var i := 0;
      while ok && i < |es|
        invariant 0 <= i <= |es| && socketLock == old(socketLock) && tileLock == old(tileLock)
        invariant ReadLoop(p, Acc(true, c0, t0, 0), cpu, owner, mask, es, i) == Acc(ok, State(), tcs[..], 0)
      {
        ok := ReadStep(cpu, owner, mask, es[i], i, tcs);
        i := i + 1;
      }
      if !ok {
        ReadStuck(p, Acc(true, c0, t0, 0), cpu, owner, mask, es, i, |es|);
      }
    }

    /** perfmon_readCountersThread_broadwell */
    method Read(cpu: nat, mask: set<RegisterType>, es: seq<EventEntry>, tcs: array<ThreadCounter>) returns (status: Status)
      requires PhaseArgs(p, cpu, es, tcs[..])
      modifies this, tcs
      ensures Outcome(status, State(), tcs[..]) == ReadSpec(p, old(State()), cpu, mask, es, old(tcs[..]))
    {
      var owner := Owner(cpu);
      var kg := Msr(cpu, PerfGlobalCtrl);
      var core := HasCoreCounters(mask);
      var saved: bv64 := 0;
      var ok;
      if core {
        ok, saved := HpmRead(kg);
        if !ok {
          return AccessError;
        }
      }
      ok := WriteAll((if core then [Access(kg, 0)] else []) + FreezeUncore(cpu, owner, mask));
      if !ok {
        return AccessError;
      }
      ok := ReadAll(cpu, owner, mask, es, tcs);
      if !ok {
        return AccessError;
      }
      ok := WriteAll(UnfreezeUncore(cpu, owner, mask) + (if core then [Access(kg, saved)] else []));
      status := OkStatus(ok);
    }

    // -------------------------------------------------------------- finalize

    /** The read and clear of an entry's config register in finalize. */
    method ClearConfig(cpu: nat, owner: bool, cm: CounterMapEntry, t: RegisterType) returns (ok: bool)
      modifies this
      ensures config == old(config) && socketLock == old(socketLock) && tileLock == old(tileLock)
      ensures Exec(ok, State()) == ConfigClear(p, old(State()), cpu, owner, cm, t)
    {
      ok := true;
      if cm.configRegister != 0 && (t == Pmc || t == Fixed || (!IsCoreType(t) && owner)) {
        var k := RegKey(cpu, cm.device, Addr(cm.configRegister));
        var shown;
        ok, shown := HpmRead(k);
        if !ok {
          return;
        }
        ok := HpmWrite(k, 0);
      }
    }

    /** The off-core response clear of finalize. */
    method ClearOffcore(cpu: nat, tileOwner: bool, e: EventEntry) returns (ok: bool)
      modifies this
      ensures config == old(config) && socketLock == old(socketLock) && tileLock == old(tileLock)
      ensures Exec(ok, State()) == Writes(p, old(State()), OffcoreClear(cpu, tileOwner, e))
    {
      ok := true;
      if e.regType == Pmc && tileOwner && (e.event.eventId == 0xB7 || e.event.eventId == 0xBB) {
        var r := if e.event.eventId == 0xB7 then OffcoreResp0 else OffcoreResp1;
        WritesShort(p, State(), Access(Msr(cpu, r), 0), Access(Msr(cpu, r), 0));
        ok := HpmWrite(Msr(cpu, r), 0);
      }
    }

    /** The register work of one finalize iteration for an entry with a type. */
    method FinalizeWork(cpu: nat, owner: bool, tileOwner: bool, e: EventEntry, i: nat, ghost ts: seq<ThreadCounter>, word: bv64)
      returns (ok: bool, word': bv64)
      requires e.index in p.counterMap && i < |ts| && e.regType != NoType
      modifies this
      ensures socketLock == old(socketLock) && tileLock == old(tileLock)
      ensures Acc(ok, State(), if ok then ts[i := ts[i].(init := false)] else ts, word') ==
              FinalizeEntry(p, Acc(true, old(State()), ts, word), cpu, owner, tileOwner, e, i)
    {
      word' := word | EnableBit(p, e);
      ok := ClearOffcore(cpu, tileOwner, e);
      if ok {
        ok := ClearConfig(cpu, owner, p.counterMap[e.index], e.regType);
      }
    }

    /** One iteration of finalize's loop; `word` gathers the core overflow bits to clear. */
    method FinalizeStep(cpu: nat, owner: bool, tileOwner: bool, e: EventEntry, i: nat, tcs: array<ThreadCounter>, word: bv64)
      returns (ok: bool, word': bv64)
      requires e.index in p.counterMap && i < tcs.Length
      modifies this, tcs
      ensures socketLock == old(socketLock) && tileLock == old(tileLock)
      ensures Acc(ok, State(), tcs[..], word') == FinalizeEntry(p, Acc(true, old(State()), old(tcs[..]), word), cpu, owner, tileOwner, e, i)
    {
      if e.regType == NoType {
        return true, word;
      }
      ghost var ts := tcs[..];
      ok, word' := FinalizeWork(cpu, owner, tileOwner, e, i, ts, word);
      if ok {
        tcs[i] := tcs[i].(init := false);
      }
      assert tcs[..] == if ok then ts[i := ts[i].(init := false)] else ts;
    }

    /** The loop of perfmon_finalizeCountersThread_broadwell. */
    method FinalizeAll(cpu: nat, owner: bool, tileOwner: bool, es: seq<EventEntry>, tcs: array<ThreadCounter>) returns (ok: bool, word: bv64)
      requires EntriesMapped(p, es) && tcs.Length == |es|
      modifies this, tcs
      ensures socketLock == old(socketLock) && tileLock == old(tileLock)
      ensures Acc(ok, State(), tcs[..], word) == FinalizeLoop(p, Acc(true, old(State()), old(tcs[..]), Bit(63) | Bit(62)), cpu, owner, tileOwner, es, |es|)
    {
      ghost var a0 := Acc(true, State(), tcs[..], Bit(63) | Bit(62));
      ok, word := true, Bit(63) | Bit(62);
      var i := 0;
      while ok && i < |es|
        invariant 0 <= i <= |es| && socketLock == old(socketLock) && tileLock == old(tileLock)
        invariant FinalizeLoop(p, a0, cpu, owner, tileOwner, es, i) == Acc(ok, State(), tcs[..], word)
      {
        ok, word := FinalizeStep(cpu, owner, tileOwner, es[i], i, tcs, word);
        i := i + 1;
      }
      if !ok {
        FinalizeStuck(p, a0, cpu, owner, tileOwner, es, i, |es|);
      }
    }

    /** perfmon_finalizeCountersThread_broadwell */
    method Finalize(cpu: nat, mask: set<RegisterType>, es: seq<EventEntry>, tcs: array<ThreadCounter>) returns (status: Status)
      requires PhaseArgs(p, cpu, es, tcs[..])
      modifies this, tcs
      ensures Outcome(status, State(), tcs[..]) == FinalizeSpec(p, old(State()), cpu, mask, es, old(tcs[..]))
    {
      var owner, tileOwner := Owner(cpu), TileOwner(cpu);
      var ok, word := FinalizeAll(cpu, owner, tileOwner, es, tcs);
      if !ok {
        return AccessError;
      }
      ok := WriteAll(FinalizeTail(cpu, owner, mask, word));
      status := OkStatus(ok);
    }
  }
}
