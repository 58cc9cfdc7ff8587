/**
 * The control-word encoders of the Broadwell backend as pure functions: the
 * option-to-bit table of every register family, the word each encoder
 * builds, and the plan (auxiliary writes, config writes, cache update) each
 * encoder call carries out.
 */
module Encoders {

  import opened Bits
  import opened PerfmonTypes
  import opened Transport

  /** The register families whose encoders fold the option list into a word. */
  datatype Field =
    | PmcField | PmcOffcoreField
    | UboxField
    | CboxField | CboxFilter0Field | CboxFilter1Field
    | WboxField
    | BoxField
    | MboxFixField

  /** The `switch (event->options[j].type)` of each encoder; options a family does not know add nothing. */
  function OptionBits(f: Field, o: EventOption): bv64
  {
    match f
    case PmcField =>
      (match o.kind
       case Edge => Bit(18)
       case CountKernel => Bit(17)
       case Invert => Bit(23)
       case AnyThread => Bit(21)
       case Threshold => (o.value & 0xFF) << 24
       case InTransaction => Bit(32)
       case InTransactionAbort => Bit(33)
       case _ => 0)
    case PmcOffcoreField =>
      (match o.kind
       case Match0 => o.value & 0x8FFF
       case Match1 => o.value << 16
       case _ => 0)
    case UboxField =>
      (match o.kind
       case Edge => Bit(18)
       case Invert => Bit(23)
       case Threshold => (o.value & 0x1F) << 24
       case _ => 0)
    case CboxField =>
      (match o.kind
       case Edge => Bit(18)
       case Invert => Bit(23)
       case Threshold => (o.value & 0xFF) << 24
       case ThreadId => Bit(19)
       case _ => 0)
    case CboxFilter0Field =>
      (match o.kind
       case State => LowBits(o.value, 6) << 17
       case ThreadId => LowBits(o.value, 6)
       case _ => 0)
    case CboxFilter1Field =>
      (match o.kind
       case Opcode => (0x3 << 27) | (LowBits(o.value, 5) << 20)
       case NodeId => LowBits(o.value, 16)
       case Match0 => LowBits(o.value, 2) << 30
       case _ => 0)
    case WboxField =>
      (match o.kind
       case Edge => Bit(18)
       case Invert => Bit(23)
       case Threshold => (o.value & 0x1F) << 24
       case Occupancy => (o.value & 0x3) << 14
       case OccupancyEdge => Bit(31)
       case OccupancyInvert => Bit(30)
       case _ => 0)
    case BoxField =>
      (match o.kind
       case Edge => Bit(18)
       case Invert => Bit(23)
       case Threshold => (o.value & 0xFF) << 24
       case _ => 0)
    case MboxFixField =>
      (match o.kind
       case Invert => Bit(23)
       case _ => 0)
  }

  /** The bits an option loop ORs into a word, in option order; `g` is the loop's switch. */
  function OrFold(g: EventOption -> bv64, opts: seq<EventOption>): bv64
    decreases |opts|
  {
    if opts == [] then 0 else OrFold(g, opts[..|opts| - 1]) | g(opts[|opts| - 1])
  }

  /** The option loop of a family's encoder. */
  function OrOver(f: Field, opts: seq<EventOption>): bv64
  {
    OrFold(o => OptionBits(f, o), opts)
  }

  /** Some option of the list has kind `k`. */
  predicate HasOption(opts: seq<EventOption>, k: OptionType)
    decreases |opts|
  {
    opts != [] && (HasOption(opts[..|opts| - 1], k) || opts[|opts| - 1].kind == k)
  }

  /** `(event->umask<<8) + event->eventId` */
  function EventSelect(e: PerfmonEvent): bv64
  {
    ((e.umask as bv64) << 8) + (e.eventId as bv64)
  }

  // ---------------------------------------------------------------- FIXED

  /** The option switch of bdw_fixed_setup: bits of the counter's own four-bit group. */
  function FixedOptionBits(index: nat, o: EventOption): bv64
  {
    match o.kind
    case CountKernel => NibbleBit(index, 0)
    case AnyThread => NibbleBit(index, 2)
    case _ => 0
  }

  function FixedOrOver(index: nat, opts: seq<EventOption>): bv64
  {
    OrFold(o => FixedOptionBits(index, o), opts)
  }

  /** bdw_fixed_setup's word: `flags` is a uint32_t, so only the low 32 bits survive. */
  function FixedWord(index: nat, opts: seq<EventOption>): bv64
  {
    (NibbleBit(index, 1) | FixedOrOver(index, opts)) & 0xFFFF_FFFF
  }

  // ---------------------------------------------------------------- PMC

  /** Custom cfg and cmask are placed at bit 16 unless cfgBits is 0 or the event is off-core. */
  predicate PmcUsesCfg(e: PerfmonEvent)
  {
    e.cfgBits != 0 && e.eventId != 0xB7 && e.eventId != 0xBB
  }

  /**
   * `((cmask<<8) + cfgBits) << 16` when the event uses it, else nothing. The
   * u8 operands are promoted to `int`, so a cmask of 0x80 or more reaches the
   * sign bit and the field sign-extends when it is ORed into the 64-bit flags.
   */
  function PmcCfgField(e: PerfmonEvent): bv64
  {
    if PmcUsesCfg(e) then CfgShifted(e.cmask, e.cfgBits) else 0
  }

  /** `((cmask<<8) + cfgBits) << 16` computed in `int` and widened to the uint64_t flags. */
  function CfgShifted(cmask: bv8, cfgBits: bv8): bv64
  {
    IntWiden((((cmask as bv64) << 8) + (cfgBits as bv64)) << 16)
  }

  /** bdw_pmc_setup's word: enable (22) and user mode (16), event select, cfg field, options. */
  function PmcWord(e: PerfmonEvent): bv64
  {
    Bit(22) | Bit(16) | EventSelect(e) | PmcCfgField(e) | OrOver(PmcField, e.options)
  }

  /** The value written to the off-core response register of events 0xB7 and 0xBB. */
  function OffcoreValue(e: PerfmonEvent): bv64
  {
    if e.cfgBits != 0xFF && e.cmask != 0xFF then ByteBit(e.cfgBits) | ByteBit(e.cmask)
    else OrOver(PmcOffcoreField, e.options)
  }

  function OffcoreWrites(cpu: nat, e: PerfmonEvent): seq<Access>
  {
    if e.eventId == 0xB7 then [Access(RegKey(cpu, MsrDev, OffcoreResp0), OffcoreValue(e))]
    else if e.eventId == 0xBB then [Access(RegKey(cpu, MsrDev, OffcoreResp1), OffcoreValue(e))]
    else []
  }

  /** Write `w` to `key` and cache it, unless it equals the cached word. */
  function OnChange(key: RegKey, w: bv64, cached: bv64, aux: seq<Access>): Plan
  {
    if w != cached then Plan(Ok, aux, [Access(key, w)], Some(w)) else Plan(Ok, aux, [], None)
  }

  /**
   * The double write of the memory, home-agent, IRP and ring-to-PCIe boxes:
   * once without the enable bit 22 and again with it; the armed word is what
   * is compared with and stored in the cache.
   */
  function TwoPhase(key: RegKey, flags: bv64, cached: bv64, aux: seq<Access>): Plan
  {
    var armed := flags | Bit(22);
    if armed != cached then Plan(Ok, aux, [Access(key, flags), Access(key, armed)], Some(armed))
    else Plan(Ok, aux, [], None)
  }

  function PmcPlan(cpu: nat, cm: CounterMapEntry, e: PerfmonEvent, cached: bv64): Plan
  {
    OnChange(RegKey(cpu, MsrDev, Addr(cm.configRegister)), PmcWord(e), cached, OffcoreWrites(cpu, e))
  }

  // ---------------------------------------------------------------- UBOX

  function UboxWord(e: PerfmonEvent): bv64
  {
    Bit(22) | Bit(20) | EventSelect(e) | OrOver(UboxField, e.options)
  }

  function UboxPlan(owner: bool, cpu: nat, cm: CounterMapEntry, e: PerfmonEvent, cached: bv64): Plan
  {
    if !owner then Skip(Ok)
    else OnChange(RegKey(cpu, MsrDev, Addr(cm.configRegister)), UboxWord(e), cached, [])
  }

  /** The fixed UBOX counter is enabled with a constant word, written on every setup by the owner. */
  const UboxFixWord: bv64 := Bit(22) | Bit(20)

  // ---------------------------------------------------------------- CBOX

  function CboxWord(e: PerfmonEvent): bv64
  {
    Bit(22) | EventSelect(e) | OrOver(CboxField, e.options)
  }

  /** Event 0x34 without a STATE option gets every cache state in filter 0. */
  predicate CboxStateAll(e: PerfmonEvent)
  {
    e.eventId == 0x34 && !HasOption(e.options, State)
  }

  const CboxAllStates: bv64 := 0x1F << 17

  /**
   * The filter writes of bdw_cbox_setup: both filters, then, for `stateAll`,
   * filter 0 read back (it holds the last value stored there) with every
   * state bit added.
   */
  function CboxFilterWrites(k0: RegKey, k1: RegKey, f0: bv64, f1: bv64, stateAll: bool): seq<Access>
  {
    var readBack := if k1 == k0 then f1 else f0;
    [Access(k0, f0), Access(k1, f1)] + (if stateAll then [Access(k0, readBack | CboxAllStates)] else [])
  }

  function CboxPlan(owner: bool, cpu: nat, cm: CounterMapEntry, box: BoxEntry, e: PerfmonEvent, cached: bv64): Plan
  {
    if !owner then Skip(Ok)
    else
      var aux := CboxFilterWrites(RegKey(cpu, MsrDev, Addr(box.filterRegister1)), RegKey(cpu, MsrDev, Addr(box.filterRegister2)),
                                  OrOver(CboxFilter0Field, e.options), OrOver(CboxFilter1Field, e.options), CboxStateAll(e));
      OnChange(RegKey(cpu, MsrDev, Addr(cm.configRegister)), CboxWord(e), cached, aux)
  }

  // ---------------------------------------------------------------- WBOX

  /**
   * The WBOX event selection: enable, reset and the event id, with a umask of
   * 1..3 placed at bit 14; the umask 0xFF replaces the whole word with bit 21.
   */
  function WboxSelect(e: PerfmonEvent): bv64
  {
    var base := Bit(22) | Bit(20) | (e.eventId as bv64);
    if 0x00 < e.umask <= 0x3 then base | ((e.umask as bv64) << 14)
    else if e.umask == 0xFF then Bit(21)
    else base
  }

  function WboxWord(e: PerfmonEvent): bv64
  {
    WboxSelect(e) | OrOver(WboxField, e.options)
  }

  /** The writes an option loop issues, in option order; `g` gives the writes of one option. */
  function ConcatMap(g: EventOption -> seq<Access>, opts: seq<EventOption>): seq<Access>
    decreases |opts|
  {
    if opts == [] then [] else ConcatMap(g, opts[..|opts| - 1]) + g(opts[|opts| - 1])
  }

  /** The filter write of one WBOX option: OCCUPANCY_FILTER stores its low 32 bits. */
  function WboxFilterWrite(k: RegKey, o: EventOption): seq<Access>
  {
    if o.kind == OccupancyFilter then [Access(k, o.value & 0xFFFF_FFFF)] else []
  }

  /** The occupancy-filter writes the WBOX option loop issues, in order. */
  function WboxFilterWrites(k: RegKey, opts: seq<EventOption>): seq<Access>
  {
    ConcatMap(o => WboxFilterWrite(k, o), opts)
  }

  /** The filter writes, then a clearing of the filter when no option set it. */
  function WboxAux(k: RegKey, opts: seq<EventOption>): seq<Access>
  {
    WboxFilterWrites(k, opts) + (if !HasOption(opts, OccupancyFilter) then [Access(k, 0)] else [])
  }

  function WboxPlan(owner: bool, cpu: nat, cm: CounterMapEntry, box: BoxEntry, e: PerfmonEvent, cached: bv64): Plan
  {
    if !owner then Skip(Ok)
    else
      var k := RegKey(cpu, MsrDev, Addr(box.filterRegister1));
      OnChange(RegKey(cpu, MsrDev, Addr(cm.configRegister)), WboxWord(e), cached, WboxAux(k, e.options))
  }

  // ------------------------------------------------- MBOX, IBOX, PBOX, BBOX

  /** The unarmed word of the memory, home-agent, IRP and ring-to-PCIe boxes. */
  function BoxWord(e: PerfmonEvent): bv64
  {
    Bit(20) | EventSelect(e) | OrOver(BoxField, e.options)
  }

  /** bdw_mbox_setup; bdw_ibox_setup and bdw_pbox_setup are the same code. */
  function TwoPhaseBoxPlan(owner: bool, present: bool, cpu: nat, cm: CounterMapEntry, e: PerfmonEvent, cached: bv64): Plan
  {
    if !owner then Skip(Ok)
    else if !present then Skip(NoDevice)
    else TwoPhase(RegKey(cpu, cm.device, Addr(cm.configRegister)), BoxWord(e), cached, [])
  }

  /** The writes of one BBOX option: OPCODE sets the opcode match, MATCH0 both address-match halves. */
  function BboxMatchWrite(cpu: nat, dev: Device, o: EventOption): seq<Access>
  {
    if o.kind == Opcode then [Access(RegKey(cpu, dev, HaOpcodeMatch), o.value & 0x3F)]
    else if o.kind == Match0 then
      [Access(RegKey(cpu, dev, HaAddrMatch0), o.value & 0xFFFF_FFC0),
       Access(RegKey(cpu, dev, HaAddrMatch1), (o.value >> 32) & 0x3FFF)]
    else []
  }

  /** The opcode and address-match writes the BBOX option loop issues, in order. */
  function BboxMatchWrites(cpu: nat, dev: Device, opts: seq<EventOption>): seq<Access>
  {
    ConcatMap(o => BboxMatchWrite(cpu, dev, o), opts)
  }

  /** The match registers an event without OPCODE or MATCH0 options clears. */
  function BboxClearWrites(cpu: nat, dev: Device, opts: seq<EventOption>): seq<Access>
  {
    (if !HasOption(opts, Opcode) then [Access(RegKey(cpu, dev, HaOpcodeMatch), 0)] else [])
    + (if !HasOption(opts, Match0)
       then [Access(RegKey(cpu, dev, HaAddrMatch0), 0), Access(RegKey(cpu, dev, HaAddrMatch1), 0)]
       else [])
  }

  function BboxPlan(owner: bool, present: bool, cpu: nat, cm: CounterMapEntry, e: PerfmonEvent, cached: bv64): Plan
  {
    if !owner then Skip(Ok)
    else if !present then Skip(NoDevice)
    else
      var aux := BboxMatchWrites(cpu, cm.device, e.options) + BboxClearWrites(cpu, cm.device, e.options);
      TwoPhase(RegKey(cpu, cm.device, Addr(cm.configRegister)), BoxWord(e), cached, aux)
  }

  // ---------------------------------------------------------------- MBOXFIX

  function MboxFixWord(e: PerfmonEvent): bv64
  {
    Bit(20) | Bit(22) | OrOver(MboxFixField, e.options)
  }

  function MboxFixPlan(owner: bool, present: bool, cpu: nat, cm: CounterMapEntry, e: PerfmonEvent, cached: bv64): Plan
  {
    if !owner then Skip(Ok)
    else if !present then Skip(NoDevice)
    else OnChange(RegKey(cpu, cm.device, Addr(cm.configRegister)), MboxFixWord(e), cached, [])
  }
}
