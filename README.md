# Broadwell performance-monitoring backend, cycle timer and benchmark size parser

This project models three parts of the LIKWID tool suite and proves properties about the models.

**The Broadwell backend** (`src/includes/perfmon_broadwell.h`)
- It programs and reads the hardware counters of one hardware thread through six phases:
  1. init takes the socket and tile locks and clears PEBS;
  2. setup encodes each event's options into the counter's control register;
  3. start zeroes and enables the counters;
  4. stop freezes, reads and disarms them;
  5. read samples them while they run;
  6. finalize clears the control registers and overflow status.
- It also holds the per-box encoders: PMC, FIXED, UBOX, CBOX, WBOX, BBOX, MBOX, MBOXFIX, IBOX and PBOX.
- It holds the shared uncore read as well, with its global and per-box overflow probes.

**The cycle timer** (`src/timer.c`)
- `timer_init` chooses the time-stamp readers once and calibrates once.
- `timer_finalize` undoes init.
- `_timer_printCycles` returns a clamped 64-bit cycle difference.

**The size parser** (`bench/src/strUtil.c`)
- The benchmark's `str2int` is modelled on top of `strtoul`.
- `bstr_to_doubleSize` turns strings such as "32kB" into array element counts.

**How the model is built**
- The hardware is a register file. It maps (cpu, device, register) to a 64-bit word and keeps a log of every write.
- A fixed set of faulty registers stands for transport failures. Reading or writing one of them fails, and the calling phase returns early, as the `CHECK_*_ERROR` macros do.
- The `currentConfig` cache and the socket and tile locks are part of the same engine state.

**How the backend is modelled**
- The backend is the class `Backend.Broadwell`. It has one method per C function, with the C loops and option switches.
- Each method is proved equal to a pure specification:
  - an encoder is proved equal to the `Plan` it runs (auxiliary writes, config writes, cache update), from module `Encoders`;
  - a phase is proved equal to a prefix fold over the event set, from module `Lifecycle`.
- The properties are lemmas about these specifications:
  - `EncoderProps`: bit-level meaning of every control word;
  - `PlanProps`: write order, caching, lock and device gates, two-phase arming;
  - `LifecycleProps`: overflow rules, record effects of each phase, enable mask.

**Timer and size parser**
- The timer is the class pair `Timer.TimerModule` and `Timer.TimerData`. Its pure core is `Timer.Cycles`.
- The string functions are pure, in module `StrUtil`.

## Model

| member | source | states |
|---|---|---|
| Backend.Fold | src/includes/perfmon_broadwell.h:64-76 | the option loop of an encoder ends with the OR of every option's contribution, in option order |
| Backend.PmcFlags | src/includes/perfmon_broadwell.h:91-139 | computes the PMC control word, with the cfg field `((cmask<<8)+cfgBits)<<16` evaluated in `int` and sign-extended into the 64-bit flags; the EncoderProps.PmcWord* and PmcCfg* lemmas state what its bits mean |
| Backend.OffcoreFlags | src/includes/perfmon_broadwell.h:130-156 | the off-core response value is the OR of the MATCH0/MATCH1 fields, replaced by two bits when cfgBits and cmask are both not 0xFF |
| Backend.UboxFlags | src/includes/perfmon_broadwell.h:179-200 | computes the UBOX word (enable, reset, event select, option bits) |
| Backend.CboxOptions | src/includes/perfmon_broadwell.h:225-269 | computes the CBOX word, both filter words and the state-all flag; the state-all flag is set exactly for event 0x34 without a STATE option; where the option values land is stated by EncoderProps.CboxFilter0Fields, CboxFilter1Fields and CboxWordTid |
| Backend.WboxFlags | src/includes/perfmon_broadwell.h:318-361 | computes the WBOX word; where the umask and the OCCUPANCY values land is stated by EncoderProps.WboxWordUmask, and the umask 0xFF case by PlanProps.WboxWordEnable |
| Backend.BoxFlags | src/includes/perfmon_broadwell.h:475-496 | computes the first-phase word of MBOX/BBOX/IBOX/PBOX (reset bit, event select, edge/invert/threshold) |
| Backend.MboxFixFlags | src/includes/perfmon_broadwell.h:525-539 | computes the MBOXFIX word (enable, reset, optional invert) |
| Backend.CboxReadBack | src/includes/perfmon_broadwell.h:271-296 | after both filter writes succeed, the read-back of filter 0 succeeds and returns what was last stored there |
| Backend.Broadwell.FixedSetup | src/includes/perfmon_broadwell.h:60-83 | returns and caches the FIXED word when it differs from the cached one, else returns 0 and changes nothing |
| Backend.Broadwell.PmcSetup | src/includes/perfmon_broadwell.h:85-167 | the register effect is exactly the PMC plan: off-core write for events 0xB7/0xBB, then the config write on change, then the cache update |
| Backend.Broadwell.UboxSetup | src/includes/perfmon_broadwell.h:169-208 | the effect is the UBOX plan: nothing unless this CPU holds the socket lock, then a write on change |
| Backend.Broadwell.CboxSetup | src/includes/perfmon_broadwell.h:210-304 | the effect is the CBOX plan: both filter writes, the state-all read-modify-write, then the config write on change |
| Backend.Broadwell.CboxFilters | src/includes/perfmon_broadwell.h:271-296 | performs exactly the filter writes of the plan and stops at the first failure |
| Backend.Broadwell.WboxFilters | src/includes/perfmon_broadwell.h:343-350 | writes each OCCUPANCY_FILTER value in option order; `clean` is true exactly when no such option exists |
| Backend.Broadwell.WboxSetup | src/includes/perfmon_broadwell.h:306-375 | the effect is the WBOX plan: filter writes, the clearing write when no filter option was given, then the config write on change |
| Backend.Broadwell.BboxOptions | src/includes/perfmon_broadwell.h:397-432 | writes the OPCODE and MATCH0 registers in option order and reports which of the two kinds occurred |
| Backend.Broadwell.BboxSetup | src/includes/perfmon_broadwell.h:377-458 | the effect is the BBOX plan: owner and device gates, match writes, clearing of unset match registers, then the two-phase config write |
| Backend.Broadwell.BoxSetup | src/includes/perfmon_broadwell.h:460-508 | the effect is the two-phase plan that bdw_mbox_setup, bdw_ibox_setup and bdw_pbox_setup share |
| Backend.Broadwell.MboxFixSetup | src/includes/perfmon_broadwell.h:510-547 | the effect is the MBOXFIX plan: owner and device gates, then one write on change |
| Backend.Broadwell.Init | src/includes/perfmon_broadwell.h:51-57 | the new state and status are InitSpec's, whose meaning LifecycleProps.InitEffect states |
| Backend.Broadwell.Encode | src/includes/perfmon_broadwell.h:724-812 | dispatches each register type to its encoder; the effect is the plan EncoderPlan selects |
| Backend.Broadwell.Setup | src/includes/perfmon_broadwell.h:689-820 | the new engine state, records and status are SetupSpec's: header writes, the per-entry loop, then FIXED_CTR_CTRL when a fixed word changed |
| Backend.Broadwell.UnfreezeAndResetAll | src/includes/perfmon_broadwell.h:663-687 | as owner with uncore types in the mask: clears both counter registers of every present uncore entry (except WBOX0FIX), then writes unfreeze |
| Backend.Broadwell.Start | src/includes/perfmon_broadwell.h:822-898 | the new state, records and status are StartSpec's |
| Backend.Broadwell.ReadCore | src/includes/perfmon_broadwell.h:983-993 | the counter read plus BDW_CHECK_CORE_OVERFLOW is CoreRead, whose rule LifecycleProps.CoreOverflowRule states |
| Backend.Broadwell.ReadPower | src/includes/perfmon_broadwell.h:1044-1055 | the power read and its overflow count are PowerRead's |
| Backend.Broadwell.ReadRaw | src/includes/perfmon_broadwell.h:915-933 | reads one or two counter registers, joining them high:low, and clears each after reading when asked |
| Backend.Broadwell.ReadUncore | src/includes/perfmon_broadwell.h:900-980 | result, overflow count, state and status are those of UncoreRead |
| Backend.Broadwell.Stop | src/includes/perfmon_broadwell.h:995-1130 | the new state, records and status are StopSpec's |
| Backend.Broadwell.Read | src/includes/perfmon_broadwell.h:1133-1276 | the new state, records and status are ReadSpec's |
| Backend.Broadwell.Finalize | src/includes/perfmon_broadwell.h:1278-1352 | the new state, records and status are FinalizeSpec's |
| Lifecycle.SetupEntry | src/includes/perfmon_broadwell.h:711-813 | one setup iteration changes only the record of its own entry |
| Lifecycle.SetupLoop | src/includes/perfmon_broadwell.h:711-813 | after `n` entries, the records from `n` on are untouched |
| Lifecycle.StartEntry | src/includes/perfmon_broadwell.h:834-885 | one start iteration changes only its own record |
| Lifecycle.StartLoop | src/includes/perfmon_broadwell.h:834-885 | after `n` entries, the records from `n` on are untouched |
| Lifecycle.CoreRead | src/includes/perfmon_broadwell.h:983-993 | the overflow check changes only the overflow count of the record |
| Lifecycle.PowerRead | src/includes/perfmon_broadwell.h:1044-1055 | the power branch changes only the overflow count |
| Lifecycle.ThermalRead | src/includes/perfmon_broadwell.h:1056-1058 | the thermal branch leaves the record alone |
| Lifecycle.ReadSample | src/includes/perfmon_broadwell.h:1030-1120 | the switch of stop's loop never changes `init` |
| Lifecycle.ReadEntry | src/includes/perfmon_broadwell.h:1030-1123 | one read of an entry keeps its `init` |
| Lifecycle.StopEntry | src/includes/perfmon_broadwell.h:1013-1126 | one stop iteration changes only its own record |
| Lifecycle.StopLoop | src/includes/perfmon_broadwell.h:1013-1126 | after `n` entries, the records from `n` on are untouched |
| Lifecycle.ReadLoopEntry | src/includes/perfmon_broadwell.h:1154-1266 | one read iteration changes only its own record |
| Lifecycle.ReadLoop | src/includes/perfmon_broadwell.h:1154-1266 | after `n` entries, the records from `n` on are untouched |
| Lifecycle.FinalizeEntry | src/includes/perfmon_broadwell.h:1294-1334 | one finalize iteration changes only its own record |
| Lifecycle.FinalizeLoop | src/includes/perfmon_broadwell.h:1294-1334 | after `n` entries, the records from `n` on are untouched |
| EncoderProps.OrFoldMeans | src/includes/perfmon_broadwell.h:105-139 | when each option carries mask `m` exactly if it has a given kind, the folded word carries `m` if some option has that kind and avoids it otherwise |
| EncoderProps.FixedWordBits | src/includes/perfmon_broadwell.h:63-76 | for FIXED counters 0..7: the counter's user bit is always set; the kernel bit is set iff COUNT_KERNEL is given; the any-thread bit is set iff ANYTHREAD is given |
| EncoderProps.FixedWordWidth | src/includes/perfmon_broadwell.h:63 | the FIXED word fits the 32-bit `flags` |
| EncoderProps.PmcWordFlag | src/includes/perfmon_broadwell.h:95-129 | each single-bit option (edge, kernel, invert, any-thread, in-transaction, in-transaction-abort) has its bit set in the PMC word iff the event carries the option or the cfg field has that bit |
| EncoderProps.PmcCfgFlag | src/includes/perfmon_broadwell.h:95-101 | the cfg field has a flag bit of 17..23 iff it is used and cfgBits has bit `k - 16`; it has the transaction bits 32 and 33 iff it sign-extends (used, with cmask >= 0x80) |
| EncoderProps.PmcCfgFieldBits | src/includes/perfmon_broadwell.h:95-101 | the cfg field is used iff cfgBits is not 0 and the event is not 0xB7/0xBB; then bits 16..23 hold cfgBits and 24..31 hold cmask; bits 0..15 are clear; with cmask below 0x80 nothing above bit 31 is set, with cmask 0x80 or more the `int` result is negative and bits 32..63 are all set |
| EncoderProps.PmcWordSignExtendExample | src/includes/perfmon_broadwell.h:100 | event 0x3C with cfgBits 1 and cmask 0x80 gives the word 0xFFFF_FFFF_8041_003C |
| EncoderProps.PmcWordSelect | src/includes/perfmon_broadwell.h:91-93 | the low 16 bits of the PMC word are `(umask<<8) + eventId` |
| EncoderProps.PmcWordEnable | src/includes/perfmon_broadwell.h:91 | the PMC word always carries enable (22) and user (16) |
| EncoderProps.PmcWordWidth | src/includes/perfmon_broadwell.h:91-129 | without a sign-extending cfg field no bit above 33 is set in a PMC word; with one, bits 32..63 are all set |
| EncoderProps.PmcWordThreshold | src/includes/perfmon_broadwell.h:95-123 | bits 24..31 of the PMC word are the OR of every THRESHOLD value masked to 8 bits, and of cmask when the cfg field is used |
| EncoderProps.PmcWordOneThreshold | src/includes/perfmon_broadwell.h:121-123 | without the cfg field and with exactly one THRESHOLD option, bits 24..31 are that value masked to 8 bits |
| EncoderProps.PmcWordNoThreshold | src/includes/perfmon_broadwell.h:95-123 | with neither custom cfg nor a THRESHOLD option, bits 24..31 are clear |
| EncoderProps.UboxWordFlag | src/includes/perfmon_broadwell.h:183-199 | the UBOX word has edge (18) and invert (23) iff the event carries those options |
| EncoderProps.CboxWordFlag | src/includes/perfmon_broadwell.h:234-268 | the CBOX word has edge and invert iff the event carries those options |
| EncoderProps.CboxFilter0Fields | src/includes/perfmon_broadwell.h:254-261 | CBOX filter 0: bits 17..22 are the OR of the STATE values cut to 6 bits, bits 0..5 the OR of the TID values cut to 6 bits, and no other bit is set |
| EncoderProps.CboxFilter1Fields | src/includes/perfmon_broadwell.h:247-264 | CBOX filter 1: bits 0..15 are the OR of the NID values cut to 16 bits, bits 20..24 the OR of the OPCODE values cut to 5 bits, bits 30..31 the OR of the MATCH0 values cut to 2 bits; bits 27 and 28 are set iff an OPCODE option is given; no other bit is set |
| EncoderProps.CboxWordTid | src/includes/perfmon_broadwell.h:258-261 | the CBOX word has bit 19 iff a TID option is given |
| EncoderProps.WboxWordUmask | src/includes/perfmon_broadwell.h:318-345 | bits 14..15 of the WBOX word are the umask when it is 1..3 (else 0), ORed with every OCCUPANCY value cut to 2 bits |
| EncoderProps.WboxWordFlag | src/includes/perfmon_broadwell.h:330-360 | the WBOX word has edge and invert iff the event carries those options |
| EncoderProps.BoxWordFlag | src/includes/perfmon_broadwell.h:479-495 | the MBOX/BBOX/IBOX/PBOX word has edge and invert iff the event carries those options |
| EncoderProps.MboxFixWordInvert | src/includes/perfmon_broadwell.h:526-539 | the MBOXFIX word has invert (23) iff the event carries INVERT |
| PlanProps.PmcRunOrder | src/includes/perfmon_broadwell.h:142-165 | when the PMC word changed and no write failed, the log gains the off-core write (only for 0xB7/0xBB) and then the config write, and the cache holds the new word |
| PlanProps.OffcoreIgnoresMatch | src/includes/perfmon_broadwell.h:142-156 | when cfgBits and cmask are both below 0xFF, the off-core value ignores every MATCH option and carries both named bits |
| PlanProps.OnChangeSettles | src/includes/perfmon_broadwell.h:160-165 | a write-on-change writes iff the word differs from the cache; asked again with the word it cached, it writes nothing |
| PlanProps.TwoPhaseSettles | src/includes/perfmon_broadwell.h:497-506 | the double write happens iff the armed word differs from the cache; asked again, it writes nothing |
| PlanProps.EncoderRepeat | src/includes/perfmon_broadwell.h:724-812 | after an encoder ran without access error, running it again for the same event writes no config register |
| PlanProps.EncoderSettles | src/includes/perfmon_broadwell.h:724-812 | any encoder, given the word its plan cached, plans no config write |
| PlanProps.CboxSettles | src/includes/perfmon_broadwell.h:297-302 | the same for CBOX |
| PlanProps.CboxStateAllWrite | src/includes/perfmon_broadwell.h:227-296 | CBOX writes filter 0 and filter 1 with their option words; a third write, to filter 0 with the state bits 17..21 set, happens iff the event is 0x34 and no STATE option is given |
| PlanProps.WboxSettles | src/includes/perfmon_broadwell.h:368-373 | the same for WBOX |
| PlanProps.BboxSettles | src/includes/perfmon_broadwell.h:445-456 | the same for BBOX |
| PlanProps.FixedRepeat | src/includes/perfmon_broadwell.h:730-732 | a FIXED entry run twice through setup contributes its word the first time only; the second time it changes nothing |
| PlanProps.EncoderOwnerGate | src/includes/perfmon_broadwell.h:174-177 | a CPU without the socket lock returns 0 from every uncore encoder and touches no register |
| PlanProps.SetupOwnerGate | src/includes/perfmon_broadwell.h:711-813 | for a non-owner, an uncore entry of setup is only marked initialised |
| PlanProps.EncoderDeviceGate | src/includes/perfmon_broadwell.h:390-393 | an owner whose PCI box is absent gets -ENODEV and nothing is written |
| PlanProps.UboxWordEnable | src/includes/perfmon_broadwell.h:179 | the UBOX word carries enable and reset |
| PlanProps.CboxWordEnable | src/includes/perfmon_broadwell.h:225 | the CBOX word carries enable |
| PlanProps.WboxWordEnable | src/includes/perfmon_broadwell.h:318-327 | the WBOX word carries enable and reset, except that umask 0xFF leaves bit 21 instead |
| PlanProps.MboxFixArmed | src/includes/perfmon_broadwell.h:525-545 | the MBOXFIX word is written at most once, already armed with enable and reset |
| PlanProps.BoxWordUnarmed | src/includes/perfmon_broadwell.h:475-496 | the first-phase word of the two-phase boxes never has the enable bit |
| PlanProps.TwoPhaseArmed | src/includes/perfmon_broadwell.h:497-506 | the first write lacks enable and the second (the cached one) carries it |
| PlanProps.TwoPhaseQuiet | src/includes/perfmon_broadwell.h:497 | when the armed word is the cached one, nothing is written |
| PlanProps.TwoPhaseBoxArming | src/includes/perfmon_broadwell.h:497-506 | MBOX/IBOX/PBOX write the word unarmed then armed and cache the armed word, or write nothing |
| PlanProps.BboxArming | src/includes/perfmon_broadwell.h:433-456 | BBOX does the same, after its match writes and the clearing of the match registers no option set |
| LifecycleProps.InitEffect | src/includes/perfmon_broadwell.h:51-57 | a free socket or tile lock goes to the CPU and a held one stays; then PEBS_ENABLE is cleared, and init fails iff that write fails |
| LifecycleProps.InitFirstOwns | src/includes/perfmon_broadwell.h:53-54 | of two CPUs of one socket, the first to init owns the socket, whatever the second does |
| LifecycleProps.SetupEffect | src/includes/perfmon_broadwell.h:711-722 | a successful setup marks exactly the entries of a type in the mask initialised; a failed header leaves every record alone |
| LifecycleProps.CoreOverflowRule | src/includes/perfmon_broadwell.h:983-993 | a value below the previous one counts an overflow iff the counter's global status bit is set, and then the overflow control bit is written; a value that did not decrease leaves everything alone |
| LifecycleProps.CoreReadFailure | src/includes/perfmon_broadwell.h:1033-1034 | a failed counter read ends with failure, the record and the state unchanged |
| LifecycleProps.CoreStatusReadFailure | src/includes/perfmon_broadwell.h:983-993 | when the counter went down and GLOBAL_STATUS cannot be read, the check fails with the record and the state unchanged and no OVF_CTRL write |
| LifecycleProps.PowerOverflowRule | src/includes/perfmon_broadwell.h:1044-1055 | the 32-bit energy value counts an overflow iff it is below the previous one; no status register is read or written |
| LifecycleProps.UncoreOwnerGate | src/includes/perfmon_broadwell.h:910-913 | without the socket lock, the uncore read returns 0 and changes nothing |
| LifecycleProps.UncoreRawValue | src/includes/perfmon_broadwell.h:915-933 | the read sees the counter as it was before the read, and the clearing writes leave the status registers alone |
| LifecycleProps.UncoreOverflowRule | src/includes/perfmon_broadwell.h:934-978 | the new result is the counter masked to the box width; one overflow is counted iff the result decreased and both the global bit (when the box has one) and the box bit are set |
| LifecycleProps.UncoreDecreased | src/includes/perfmon_broadwell.h:936-977 | on a decrease the global probe succeeds; the box probe runs iff it says so, and counts an overflow iff the box bit was set |
| LifecycleProps.BoxProbeRule | src/includes/perfmon_broadwell.h:961-976 | with a working status register, the box probe counts one overflow iff its bit is set |
| LifecycleProps.UncoreReadBounds | src/includes/perfmon_broadwell.h:900-980 | whatever fails, at most one overflow is added; a failed access leaves the result alone; a successful result fits the box width |
| LifecycleProps.StartLoopRecords | src/includes/perfmon_broadwell.h:834-885 | start's loop zeroes counter, full and (except POWER/WBOX0FIX) start data of initialised entries of a type in the mask, and leaves the other records alone |
| LifecycleProps.EnableMaskCarries | src/includes/perfmon_broadwell.h:851-859 | the enable mask has bit `index - perf_num_fixed_ctr` for every started PMC entry and bit `index + 32` for every started FIXED entry |
| LifecycleProps.EnableMaskOnly | src/includes/perfmon_broadwell.h:851-859 | the enable mask has no other bit |
| LifecycleProps.StartEffect | src/includes/perfmon_broadwell.h:834-895 | a successful start leaves the records as above; with core counters it ends by writing GLOBAL_OVF_CTRL = bits 63, 62 and the mask, then GLOBAL_CTRL = the mask |
| LifecycleProps.StopEffect | src/includes/perfmon_broadwell.h:1013-1126 | a successful stop clears `init` exactly of the initialised entries of a type in the mask, and leaves uncore entries with `counterData == 0` |
| LifecycleProps.ReadEntryUncore | src/includes/perfmon_broadwell.h:1116-1123 | for an uncore entry, the final store of stop's loop writes 0 over what bdw_uncore_read put in `counterData` |
| LifecycleProps.ReadEffect | src/includes/perfmon_broadwell.h:1145-1273 | read keeps every `init`; with core counters a successful read ends by restoring the GLOBAL_CTRL value it found |
| LifecycleProps.FinalizeEffect | src/includes/perfmon_broadwell.h:1294-1334 | a successful finalize clears `init` of every entry except NOTYPE ones, and changes nothing else in the records |
| Timer.CyclesEqual | src/timer.c:135-138 | equal readings give 0 cycles |
| Timer.CyclesClamp | src/timer.c:132-144 | while the baseline does not exceed the stop reading, the result is elapsed minus baseline clamped at 0 |
| Timer.CyclesBound | src/timer.c:132-144 | the result never exceeds the elapsed cycles |
| Timer.CyclesWrap | src/timer.c:132-144 | with a baseline above the stop reading, `stop - baseline` wraps to 2^64 + stop - baseline; the result is 0 when the readings are equal or start exceeds that, else the wrapped `stop - start - baseline` |
| Timer.CyclesWrapAfterReset | src/timer.c:132-144 | after a reset, a start and no stop (stop reading 0), the result is 2^64 - start - baseline |
| Timer.InitIdempotent | src/timer.c:247-250 | a second init changes nothing, whatever the CPU reports |
| Timer.InitFresh | src/timer.c:251-272 | from the fresh state, init starts with the CPUID-serialised RDTSC (fRDTSC), stops with RDTSCP when CPUID bit 27 is set and else with plain RDTSC (fRDTSC_CR), and takes the measured clock and baseline |
| Timer.FinalizeAfterInit | src/timer.c:368-380 | init then finalize ends in the fresh state |
| Timer.TimerModule.Init | src/timer.c:244-274 | the new globals are InitSpec of the old ones |
| Timer.TimerModule.Finalize | src/timer.c:368-380 | the new globals are FinalizeSpec of the old ones |
| Timer.TimerModule.PrintCycles | src/timer.c:276-284 | returns 0 before init, else the clamped cycle count |
| Timer.TimerModule.GetCpuClock | src/timer.c:298-306 | returns 0 before init, else the clock |
| Timer.TimerModule.GetBaseline | src/timer.c:308-316 | returns 0 before init, else the baseline |
| Timer.TimerModule.Start | src/timer.c:318-326 | after init and with a reader, stores the reading in `start`; `stop` is untouched |
| Timer.TimerModule.Stop | src/timer.c:329-337 | after init and with a reader, stores the reading in `stop`; `start` is untouched |
| Timer.TimerData.Reset | src/timer.c:382-386 | both readings become 0 |
| StrUtil.Strtoul | bench/src/strUtil.c:39 | the value never exceeds ULONG_MAX; an overflow reports ULONG_MAX; no digits gives 0 with nothing converted |
| StrUtil.ToInt | bench/src/strUtil.c:54 | the `(int)` cast lies in the `int` range and keeps every value up to INT_MAX |
| StrUtil.Str2IntDecimal | bench/src/strUtil.c:34-55 | str2int reads back every printed number up to INT_MAX |
| StrUtil.StrtoulConverted | bench/src/strUtil.c:39 | strtoul converts something iff a digit follows the leading whitespace and the optional sign |
| StrUtil.Str2IntNoDigits | bench/src/strUtil.c:48-52 | when no digit follows the leading whitespace and the optional sign, str2int (and its corrected version) returns -EINVAL |
| StrUtil.NoDigitsAtFront | bench/src/strUtil.c:39 | a string that starts with neither whitespace, sign nor digit has no digit to convert |
| StrUtil.Str2IntSignOnly | bench/src/strUtil.c:48-52 | " ", " x", "+", "-", "+x" and "\t-" give -EINVAL |
| StrUtil.Str2IntOverflow | bench/src/strUtil.c:41-46 | a number above ULONG_MAX is not reported: str2int returns -1 |
| StrUtil.Str2IntCheckedOverflow | bench/src/strUtil.c:41-46 | the corrected str2int returns -EINVAL for it |
| StrUtil.Str2IntCheckedAgrees | bench/src/strUtil.c:34-55 | the corrected str2int agrees with the original wherever strtoul does not overflow, and is negative exactly where the original is |
| StrUtil.MidStrSplit | bench/src/strUtil.c:60-61 | the unit is the last two characters and the number is everything before them; a shorter string has no number |
| StrUtil.ScaleFits | bench/src/strUtil.c:90-101 | for any `int` count, the uint64 products cannot wrap |
| StrUtil.DoubleSizeShort | bench/src/strUtil.c:65-68 | a string of two characters or fewer gives 0 |
| StrUtil.DoubleSizeRejected | bench/src/strUtil.c:69-77 | a count that str2int rejects or reads as negative gives 0 |
| StrUtil.DoubleSizeUnits | bench/src/strUtil.c:90-101 | n with kB/KB/MB/GB gives n times 10^3/10^3/10^6/10^9 divided by the element size |
| StrUtil.DoubleSizeUnknownUnit | bench/src/strUtil.c:90-107 | any other two-character suffix gives 0 |
| StrUtil.DoubleSizeBytesDead | bench/src/strUtil.c:102-105 | a number followed by "B" gives 0: the bytes branch is never taken |
| StrUtil.DoubleSizeBytesExample | bench/src/strUtil.c:102-105 | "64B" of doubles gives 0 rather than 8 |
| StrUtil.DoubleSizeFixedBytes | bench/src/strUtil.c:102-105 | the corrected parser turns n followed by "B" into n / element size |
| StrUtil.DoubleSizeFixedAgrees | bench/src/strUtil.c:57-108 | on every string with one of the four two-character units, the corrected parser agrees with the original |

## Left out

**Hardware and environment**
- Register transport: HPMread/HPMwrite, power_read, thermal_read and HPMcheck are not part of this model. They are a register map, a fixed set of faulty registers and a device-presence table. Register addresses not shown in the source (MSR_PERF_GLOBAL_CTRL and the like) are symbolic.
- lock_acquire: modelled as "the first CPU to ask owns the domain". Its atomicity and any concurrency between threads are left out.
- Verbose and error prints (VERBOSEPRINTREG, VERBOSEPRINTPCIREG, ERROR_PLAIN_PRINT) are left out, because they only produce output.
- `1ULL<<k` with k outside 0..63 is undefined in C. It is modelled as 0. The `int` shift `1<<k` of the uncore status tests sign-extends at k == 31. That `int` shift with k outside 0..31 is also undefined in C and is modelled as 0 (`Bits.IntBit`), so such a status test never sees a set bit.
- Encoders.PmcCfgField: the `int` expression `((cmask<<8)+cfgBits)<<16` overflows for cmask 0x80 or more, which is undefined in C. It is modelled as the usual two's-complement result, which sign-extends when ORed into the 64-bit flags.
- FixedWordBits: stated for FIXED counters 0..7 only. Higher indices shift past the 32-bit `flags`, and for them only FixedWordWidth holds.

**Modelling choices in the backend**
- Backend.Broadwell.Start: the enable mask is computed from the records as they were before the loop (Lifecycle.EnableMask), not accumulated inside it. The two agree on every path that reaches the closing writes, because a failed access returns before the mask is used.
- LifecycleProps.UncoreOverflowRule: stated under two hypotheses. The registers it touches work (UncoreWorks), and the counter and status registers are distinct (DistinctRegs). Without them only LifecycleProps.UncoreReadBounds holds.
- The CBOX read-back of filter 0 is modelled as the value last written. Backend.CboxReadBack shows that it cannot fail once both filter writes succeeded.
- The counter-count constants at lines 42-48 are not modelled. The tables counter_map and box_map, the affinity lookups and `perf_num_fixed_ctr` are inputs of the model, in `PerfmonTypes.Platform`.

**Timer**
- Timer.TimerModule.Init: the CPUID query, RDTSC/RDTSCP and getCpuSpeed's calibration loop are inputs (`edx`, `clock`, `calibrated`), not computed.
- Timer: timer_print, timer_sleep and init_sleep are left out, because they need floating point and the system clock.
- The PowerPC and MIC branches are left out.
- Timer.CyclesWrap documents the behaviour of the source. It is not claimed to be a bug.

**String parsing**
- bstrlib is not part of this model. StrUtil.MidStr follows bmidstr's documented clamping.
- parse_workgroup, parse_streams and bstr_to_workgroup are not modelled, because they parse streams and allocate.
- A DataType other than SINGLE or DOUBLE is not modelled. In C it leaves `bytesize` at 0 and divides by zero.
- StrUtil.Strtoul: models base 10 in the C locale only. It covers leading whitespace, an optional sign, and the wrap of a negated value to `ULONG_MAX + 1 - v`.

**Uncore counter data after stop and read**
- At lines 1122-1123 and 1265, stop and read store `field64(counter_result, ...)` into `counterData`. For every uncore type `counter_result` is still 0 there, because bdw_uncore_read stored its value directly. So an uncore entry's `counterData` drops to 0 after stop and read. LifecycleProps.ReadEntryUncore and LifecycleProps.StopEffect state this.

## Findings

| source | as written | input that shows it | evidently intended | confidence | as-written member | corrected member |
|---|---|---|---|---|---|---|
| bench/src/strUtil.c:60-105 | the unit is always the last two characters, so it can never equal "B" and the bytes branch never runs | "64B" with DOUBLE returns 0 | "64B" with DOUBLE returns 8 (64 bytes / 8) | not executed; the dead branch follows from the cut at line 60 | StrUtil.DoubleSizeBytesExample | StrUtil.DoubleSizeFixedBytes |
| bench/src/strUtil.c:41-46 | the range test compares strtoul's result with LONG_MAX, but strtoul reports overflow as ULONG_MAX, so the test never fires | "18446744073709551616" (2^64) returns -1 | -EINVAL with the "out of range" message | not executed | StrUtil.Str2IntOverflow | StrUtil.Str2IntCheckedOverflow |
