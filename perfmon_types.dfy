/**
 * The data model of the Broadwell perfmon backend: register types, event
 * descriptors, the static counter and box tables, the per-thread counter
 * record and the mutable engine context (register file, write log,
 * `currentConfig` cache and the socket/tile ownership tables).
 */
module PerfmonTypes {

  import opened Bits

  type CboxId = n: nat | n < 16
  type MboxId = n: nat | n < 8
  type PairId = n: nat | n < 2

  /**
   * The register types the Broadwell backend dispatches on. `Pmc`, `Fixed`,
   * `Thermal` and `Power` are the four core types that sit below UNCORE in the
   * enumeration; every other type is an uncore type. `OtherUncore` stands for
   * the uncore types of the table that this backend leaves to `default:`.
   */
  datatype RegisterType =
    | Pmc | Fixed | Thermal | Power
    | Mbox(m: MboxId) | MboxFix(m: MboxId)
    | Bbox(b: PairId)
    | Cbox(c: CboxId)
    | Ubox | UboxFix
    | Wbox | Wbox0Fix
    | Pbox
    | Ibox(i: PairId)
    | OtherUncore(n: nat)
    | NoType

  /** `type < UNCORE`: the types covered by bits 0..3 of the type mask. */
  predicate IsCoreType(t: RegisterType)
  {
    t.Pmc? || t.Fixed? || t.Thermal? || t.Power?
  }

  /** `regTypeMask & (REG_TYPE_MASK(PMC)|REG_TYPE_MASK(FIXED))` */
  predicate HasCoreCounters(mask: set<RegisterType>)
  {
    Pmc in mask || Fixed in mask
  }

  /** `regTypeMask & ~(0xFULL)`: some uncore type is present. */
  predicate HasUncore(mask: set<RegisterType>)
  {
    exists t | t in mask :: !IsCoreType(t)
  }

  datatype OptionType =
    | Edge | Invert | Threshold | AnyThread | CountKernel
    | InTransaction | InTransactionAbort
    | Match0 | Match1 | Opcode | NodeId | ThreadId | State
    | Occupancy | OccupancyFilter | OccupancyEdge | OccupancyInvert
    | OtherOption

  datatype EventOption = EventOption(kind: OptionType, value: bv64)

  datatype PerfmonEvent = PerfmonEvent(
    eventId: bv8, umask: bv8, cfgBits: bv8, cmask: bv8, options: seq<EventOption>)

  /** One entry of an event set: counter slot, its type, and the event programmed there. */
  datatype EventEntry = EventEntry(index: nat, regType: RegisterType, event: PerfmonEvent)

  datatype Device = MsrDev | PciDev(id: nat)

  /**
   * Register names. `Addr` carries an address taken from the counter or box
   * table; the other constructors are the fixed architectural registers the
   * backend names directly, and `ThermalSensor` is what thermal_read samples.
   */
  datatype Reg =
    | Addr(addr: nat)
    | PerfGlobalCtrl | PerfGlobalOvfCtrl | PerfGlobalStatus | PebsEnable | FixedCtrCtrl
    | OffcoreResp0 | OffcoreResp1
    | UncoreGlobalCtl | UncoreGlobalStatus
    | HaOpcodeMatch | HaAddrMatch0 | HaAddrMatch1
    | ThermalSensor

  datatype RegKey = RegKey(cpu: nat, dev: Device, reg: Reg)

  /** One register write, as it appears in the write log. */
  datatype Access = Access(key: RegKey, value: bv64)

  /** `counter_map[index]`; `typeOffset` is `getCounterTypeOffset(index)`. */
  datatype CounterMapEntry = CounterMapEntry(
    regType: RegisterType, configRegister: nat, counterRegister: nat,
    counterRegister2: nat, device: Device, typeOffset: nat)

  /** `box_map[type]` */
  datatype BoxEntry = BoxEntry(
    regWidth: nat, statusRegister: nat, ovflOffset: int,
    filterRegister1: nat, filterRegister2: nat)

  /** `threadCounter[thread_id]` of one event-set entry. */
  datatype ThreadCounter = ThreadCounter(
    init: bool, startData: bv64, counterData: bv64, fullData: bv64, overflows: nat)

  /**
   * Everything the backend reads but never changes: the tables, the CPU to
   * socket and tile lookups, the number of fixed counters, which devices
   * HPMcheck reports present, and which register accesses the transport fails.
   */
  datatype Platform = Platform(
    counterMap: map<nat, CounterMapEntry>,
    boxMap: map<RegisterType, BoxEntry>,
    socketOf: map<nat, nat>,
    tileOf: map<nat, nat>,
    numFixed: nat,
    present: set<(Device, nat)>,
    faulty: set<RegKey>)

  /** The engine state the backend changes. */
  datatype Ctx = Ctx(
    regs: map<RegKey, bv64>,
    log: seq<Access>,
    config: map<(nat, nat), bv64>,
    socketLock: map<nat, nat>,
    tileLock: map<nat, nat>)

  /** 0, -ENODEV, or the error a failed register access returns. */
  datatype Status = Ok | NoDevice | AccessError

  /** `box_map` is a zero-initialised static table: a type without an entry reads as zeros. */
  function Box(p: Platform, t: RegisterType): BoxEntry
  {
    if t in p.boxMap then p.boxMap[t] else BoxEntry(0, 0, 0, 0, 0)
  }

  /** A register that was never written reads as 0. */
  function Get(regs: map<RegKey, bv64>, k: RegKey): bv64
  {
    if k in regs then regs[k] else 0
  }

  /** `currentConfig[cpu][index]`, zero-initialised. */
  function Cached(c: Ctx, cpu: nat, index: nat): bv64
  {
    if (cpu, index) in c.config then c.config[(cpu, index)] else 0
  }

  predicate KnownCpu(p: Platform, cpu: nat)
  {
    cpu in p.socketOf && cpu in p.tileOf
  }

  /** `socket_lock[affinity_core2node_lookup[cpu]] == cpu` */
  predicate HasSocketLock(p: Platform, c: Ctx, cpu: nat)
    requires KnownCpu(p, cpu)
  {
    p.socketOf[cpu] in c.socketLock && c.socketLock[p.socketOf[cpu]] == cpu
  }

  /** `tile_lock[affinity_thread2tile_lookup[cpu]] == cpu` */
  predicate HasTileLock(p: Platform, c: Ctx, cpu: nat)
    requires KnownCpu(p, cpu)
  {
    p.tileOf[cpu] in c.tileLock && c.tileLock[p.tileOf[cpu]] == cpu
  }

  /** HPMcheck(dev, cpu) */
  predicate DevicePresent(p: Platform, dev: Device, cpu: nat)
  {
    (dev, cpu) in p.present
  }

  /** Every entry names a slot of the counter table. */
  predicate EntriesMapped(p: Platform, es: seq<EventEntry>)
  {
    forall i | 0 <= i < |es| :: es[i].index in p.counterMap
  }
}
