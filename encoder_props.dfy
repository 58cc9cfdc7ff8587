/**
 * What the encoders promise: which bits each control word carries and when,
 * the off-core response write, write-on-change caching, the ownership and
 * device gates, and two-phase arming.
 */
module EncoderProps {

  import opened Bits
  import opened PerfmonTypes
  import opened Transport
  import opened Encoders
  import opened Lifecycle
  import opened FoldProps

  // ------------------------------------------------------ the option fold

  /** Every option carries mask `m` when it has kind `kind`, and avoids `m` otherwise. */
  predicate EachMeans(g: EventOption -> bv64, opts: seq<EventOption>, m: bv64, kind: OptionType)
    decreases |opts|
  {
    opts == []
    || (EachMeans(g, opts[..|opts| - 1], m, kind)
        && (if opts[|opts| - 1].kind == kind then Carries(g(opts[|opts| - 1]), m) else Avoids(g(opts[|opts| - 1]), m)))
  }

  /** No option contributes any bit of `m`. */
  predicate EachAvoids(g: EventOption -> bv64, opts: seq<EventOption>, m: bv64)
    decreases |opts|
  {
    opts == [] || (EachAvoids(g, opts[..|opts| - 1], m) && Avoids(g(opts[|opts| - 1]), m))
  }

  lemma {:induction false} OrFoldHas(g: EventOption -> bv64, opts: seq<EventOption>, m: bv64, kind: OptionType)
    requires EachMeans(g, opts, m, kind) && HasOption(opts, kind)
    ensures Carries(OrFold(g, opts), m)
    decreases |opts|, 1
  {
    if HasOption(opts[..|opts| - 1], kind) {
      OrFoldHasEarlier(g, opts, m, kind);
    } else {
      OrFoldHasLast(g, opts, m, kind);
    }
  }

  lemma {:induction false} OrFoldHasEarlier(g: EventOption -> bv64, opts: seq<EventOption>, m: bv64, kind: OptionType)
    requires opts != [] && EachMeans(g, opts, m, kind) && HasOption(opts[..|opts| - 1], kind)
    ensures Carries(OrFold(g, opts), m)
    decreases |opts|, 0
  {
    var init := opts[..|opts| - 1];
    OrFoldHas(g, init, m, kind);
    OrKeepLeft(OrFold(g, init), g(opts[|opts| - 1]), m);
  }

  lemma OrFoldHasLast(g: EventOption -> bv64, opts: seq<EventOption>, m: bv64, kind: OptionType)
    requires opts != [] && EachMeans(g, opts, m, kind) && opts[|opts| - 1].kind == kind
    ensures Carries(OrFold(g, opts), m)
  {
    OrKeepRight(OrFold(g, opts[..|opts| - 1]), g(opts[|opts| - 1]), m);
  }

  lemma {:induction false} OrFoldLacks(g: EventOption -> bv64, opts: seq<EventOption>, m: bv64, kind: OptionType)
    requires EachMeans(g, opts, m, kind) && !HasOption(opts, kind)
    ensures Avoids(OrFold(g, opts), m)
    decreases |opts|
  {
    if opts != [] {
      var init := opts[..|opts| - 1];
      OrFoldLacks(g, init, m, kind);
      OrNone(OrFold(g, init), g(opts[|opts| - 1]), m);
    }
  }

  /** The fold carries `m` exactly when some option has kind `kind`, and avoids it otherwise. */
  lemma OrFoldMeans(g: EventOption -> bv64, opts: seq<EventOption>, m: bv64, kind: OptionType)
    requires EachMeans(g, opts, m, kind)
    ensures HasOption(opts, kind) ==> Carries(OrFold(g, opts), m)
    ensures !HasOption(opts, kind) ==> Avoids(OrFold(g, opts), m)
  {
    if HasOption(opts, kind) {
      OrFoldHas(g, opts, m, kind);
    } else {
      OrFoldLacks(g, opts, m, kind);
    }
  }

  lemma {:induction false} OrFoldAvoids(g: EventOption -> bv64, opts: seq<EventOption>, m: bv64)
    requires EachAvoids(g, opts, m)
    ensures Avoids(OrFold(g, opts), m)
    decreases |opts|
  {
    if opts != [] {
      var init := opts[..|opts| - 1];
      OrFoldAvoids(g, init, m);
      OrNone(OrFold(g, init), g(opts[|opts| - 1]), m);
    }
  }

  // ---------------------------------------------------------------- FIXED

  lemma FixedOption(i: nat, o: EventOption)
    requires i < 8
    ensures o.kind == CountKernel ==> Carries(FixedOptionBits(i, o), NibbleBit(i, 0))
    ensures o.kind != CountKernel ==> Avoids(FixedOptionBits(i, o), NibbleBit(i, 0))
    ensures o.kind == AnyThread ==> Carries(FixedOptionBits(i, o), NibbleBit(i, 2))
    ensures o.kind != AnyThread ==> Avoids(FixedOptionBits(i, o), NibbleBit(i, 2))
  {
  }

  lemma {:induction false} FixedEach(i: nat, opts: seq<EventOption>)
    requires i < 8
    ensures EachMeans(o => FixedOptionBits(i, o), opts, NibbleBit(i, 0), CountKernel)
    ensures EachMeans(o => FixedOptionBits(i, o), opts, NibbleBit(i, 2), AnyThread)
    decreases |opts|
  {
    if opts != [] {
      FixedEach(i, opts[..|opts| - 1]);
      FixedOption(i, opts[|opts| - 1]);
    }
  }

  /** The user-mode bit of fixed counter `i` survives the 32-bit truncation. */
  lemma FixedUserBit(i: nat, x: bv64)
    requires i < 8
    ensures NibbleSet((NibbleBit(i, 1) | x) & 0xFFFF_FFFF, i, 1)
  {
  }

  /** The kernel and any-thread bits of fixed counter `i` come from the options alone. */
  lemma FixedOptionBit(i: nat, j: nat, x: bv64)
    requires i < 8 && (j == 0 || j == 2)
    ensures NibbleSet((NibbleBit(i, 1) | x) & 0xFFFF_FFFF, i, j) <==> !Avoids(x, NibbleBit(i, j))
  {
  }

  lemma NibbleBitNonzero(i: nat, j: nat, x: bv64)
    requires i < 16 && j < 4 && Carries(x, NibbleBit(i, j))
    ensures !Avoids(x, NibbleBit(i, j))
  {
  }

  /**
   * The fixed-counter word of counter `index` always enables user-mode
   * counting (bit 4*index+1); it has the kernel bit 4*index exactly with a
   * COUNT_KERNEL option and the any-thread bit 4*index+2 exactly with an
   * ANYTHREAD option. Counters 8 and up have no bits in the 32-bit word.
   */
  lemma FixedWordBits(index: nat, opts: seq<EventOption>)
    requires index < 8
    ensures NibbleSet(FixedWord(index, opts), index, 1)
    ensures NibbleSet(FixedWord(index, opts), index, 0) <==> HasOption(opts, CountKernel)
    ensures NibbleSet(FixedWord(index, opts), index, 2) <==> HasOption(opts, AnyThread)
  {
    FixedUserBit(index, FixedOrOver(index, opts));
    FixedWordOption(index, opts, 0, CountKernel);
    FixedWordOption(index, opts, 2, AnyThread);
  }

  lemma FixedWordOption(index: nat, opts: seq<EventOption>, j: nat, kind: OptionType)
    requires index < 8 && ((j == 0 && kind == CountKernel) || (j == 2 && kind == AnyThread))
    ensures NibbleSet(FixedWord(index, opts), index, j) <==> HasOption(opts, kind)
  {
    var x := FixedOrOver(index, opts);
    FixedEach(index, opts);
    OrFoldMeans(o => FixedOptionBits(index, o), opts, NibbleBit(index, j), kind);
    FixedOptionBit(index, j, x);
    if HasOption(opts, kind) {
      NibbleBitNonzero(index, j, x);
    }
  }

  /** The fixed word fits the 32-bit `flags` of bdw_fixed_setup. */
  lemma FixedWordWidth(index: nat, opts: seq<EventOption>)
    ensures FixedWord(index, opts) >> 32 == 0
  {
  }

  // ---------------------------------------------------------------- PMC

  /** The option kinds that set a single flag bit of a PMC control word. */
  predicate IsPmcFlag(kind: OptionType)
  {
    kind.Edge? || kind.CountKernel? || kind.Invert? || kind.AnyThread? || kind.InTransaction? || kind.InTransactionAbort?
  }

  /**
   * The flag bit of each such kind, as the Intel PERFEVTSEL layout assigns
   * them: edge 18, kernel mode 17, invert 23, any thread 21, in-transaction
   * 32 and in-transaction-checkpointed 33.
   */
  function PmcFlag(kind: OptionType): bv64
  {
    match kind
    case Edge => 0x4_0000
    case CountKernel => 0x2_0000
    case Invert => 0x80_0000
    case AnyThread => 0x20_0000
    case InTransaction => 0x1_0000_0000
    case InTransactionAbort => 0x2_0000_0000
    case _ => 0
  }

  /** A PMC option adds its flag, or the masked threshold at bit 24, or nothing. */
  lemma PmcOptionShape(o: EventOption)
    ensures OptionBits(PmcField, o) == if o.kind == Threshold then (o.value & 0xFF) << 24 else PmcFlag(o.kind)
  {
  }

  lemma PmcFlagsDistinct(a: OptionType, b: OptionType)
    requires IsPmcFlag(b) && a != b
    ensures Avoids(PmcFlag(a), PmcFlag(b))
  {
    if IsPmcFlag(a) {
      PmcFlagPairs(a, b);
    } else {
      assert PmcFlag(a) == 0;
    }
  }

  lemma PmcFlagPairs(a: OptionType, b: OptionType)
    requires IsPmcFlag(a) && IsPmcFlag(b) && a != b
    ensures Avoids(PmcFlag(a), PmcFlag(b))
  {
  }

  lemma PmcFlagNonzero(a: OptionType)
    requires IsPmcFlag(a)
    ensures Carries(PmcFlag(a), PmcFlag(a)) && PmcFlag(a) != 0
    ensures PmcFlag(a) & 0xFFFF == 0 && Avoids(0x41_0000, PmcFlag(a))
  {
  }

  /** The threshold field occupies bits 24..31 only. */
  lemma ThresholdField(v: bv64)
    ensures Avoids((v & 0xFF) << 24, 0xFFFF_FFFF_00FF_FFFF)
    ensures ((v & 0xFF) << 24) >> 24 == v & 0xFF
  {
  }

  lemma ThresholdAvoidsFlags(v: bv64, b: OptionType)
    requires IsPmcFlag(b)
    ensures Avoids((v & 0xFF) << 24, PmcFlag(b))
  {
    ThresholdField(v);
    AvoidsPart((v & 0xFF) << 24, 0xFFFF_FFFF_00FF_FFFF, PmcFlag(b));
  }

  lemma PmcOption(o: EventOption, kind: OptionType)
    requires IsPmcFlag(kind)
    ensures o.kind == kind ==> Carries(OptionBits(PmcField, o), PmcFlag(kind))
    ensures o.kind != kind ==> Avoids(OptionBits(PmcField, o), PmcFlag(kind))
  {
    PmcOptionShape(o);
    if o.kind == kind {
      PmcFlagNonzero(kind);
    } else if o.kind == Threshold {
      ThresholdAvoidsFlags(o.value, kind);
    } else {
      PmcFlagsDistinct(o.kind, kind);
    }
  }

  lemma {:induction false} PmcEach(opts: seq<EventOption>, kind: OptionType)
    requires IsPmcFlag(kind)
    ensures EachMeans(o => OptionBits(PmcField, o), opts, PmcFlag(kind), kind)
    decreases |opts|
  {
    if opts != [] {
      PmcEach(opts[..|opts| - 1], kind);
      PmcOption(opts[|opts| - 1], kind);
    }
  }

  /** `(umask<<8) + eventId` has no bit above 15. */
  lemma EventSelectLow(e: PerfmonEvent)
    ensures Avoids(EventSelect(e), 0xFFFF_FFFF_FFFF_0000)
    ensures EventSelect(e) & 0xFFFF == EventSelect(e)
  {
  }

  /** The custom cfg field is used with a cmask that reaches the sign bit of its `int`. */
  predicate PmcCfgSignExtends(e: PerfmonEvent)
  {
    PmcUsesCfg(e) && e.cmask >= 0x80
  }

  /**
   * The cfg field puts cfgBits in bits 16..23 and cmask in bits 24..31 and
   * nothing below bit 16; bits 32..63 are all clear, or all set once the
   * cmask reaches the sign bit.
   */
  lemma PmcCfgFieldBits(e: PerfmonEvent)
    ensures Avoids(PmcCfgField(e), 0xFFFF)
    ensures PmcUsesCfg(e) ==> (PmcCfgField(e) >> 16) & 0xFF == e.cfgBits as bv64
    ensures PmcUsesCfg(e) ==> (PmcCfgField(e) >> 24) & 0xFF == e.cmask as bv64
    ensures !PmcCfgSignExtends(e) ==> Avoids(PmcCfgField(e), 0xFFFF_FFFF_0000_FFFF)
    ensures PmcCfgSignExtends(e) ==> Carries(PmcCfgField(e), 0xFFFF_FFFF_0000_0000)
  {
    if PmcUsesCfg(e) {
      CfgLow(e.cmask, e.cfgBits);
      CfgByteTwo(e.cmask, e.cfgBits);
      CfgByteThree(e.cmask, e.cfgBits);
      if e.cmask < 0x80 {
        CfgNarrow(e.cmask, e.cfgBits);
      } else {
        CfgWide(e.cmask, e.cfgBits);
      }
    }
  }

  lemma CfgLow(c: bv8, b: bv8)
    ensures Avoids(CfgShifted(c, b), 0xFFFF)
  {
  }

  lemma CfgByteTwo(c: bv8, b: bv8)
    ensures (CfgShifted(c, b) >> 16) & 0xFF == b as bv64
  {
  }

  lemma CfgByteThree(c: bv8, b: bv8)
    ensures (CfgShifted(c, b) >> 24) & 0xFF == c as bv64
  {
  }

  lemma CfgNarrow(c: bv8, b: bv8)
    requires c < 0x80
    ensures Avoids(CfgShifted(c, b), 0xFFFF_FFFF_0000_FFFF)
  {
  }

  lemma CfgWide(c: bv8, b: bv8)
    requires c >= 0x80
    ensures Carries(CfgShifted(c, b), 0xFFFF_FFFF_0000_0000)
  {
  }

  /** cmask 0x80 and cfgBits 1 on event 0x3C: the word is set from bit 32 up, both transaction bits included. */
  lemma PmcWordSignExtendExample()
    ensures PmcWord(PerfmonEvent(0x3C, 0, 1, 0x80, [])) == 0xFFFF_FFFF_8041_003C
  {
  }

  lemma PmcBaseAvoids(e: PerfmonEvent, kind: OptionType)
    requires IsPmcFlag(kind)
    ensures Avoids(Bit(22) | Bit(16) | EventSelect(e), PmcFlag(kind))
  {
    EventSelectLow(e);
    PmcBaseLiteral();
    PmcLiteralBaseAvoids(EventSelect(e), kind);
  }

  lemma PmcBaseLiteral()
    ensures Bit(22) | Bit(16) == 0x41_0000
  {
  }

  lemma PmcLiteralBaseAvoids(es: bv64, kind: OptionType)
    requires IsPmcFlag(kind) && Avoids(es, 0xFFFF_FFFF_FFFF_0000)
    ensures Avoids(0x41_0000 | es, PmcFlag(kind))
  {
    PmcFlagNonzero(kind);
    AvoidsPart(es, 0xFFFF_FFFF_FFFF_0000, PmcFlag(kind));
    OrNone(0x41_0000, es, PmcFlag(kind));
  }

  /**
   * Each single-bit option of bdw_pmc_setup (edge, kernel, invert, any
   * thread, in-transaction, in-transaction-checkpointed): the PMC word has
   * the option's flag bit exactly when the event carries that option or the
   * custom cfg/cmask field, which is ORed over the same word, has that bit.
   */
  lemma PmcWordFlag(e: PerfmonEvent, kind: OptionType)
    requires IsPmcFlag(kind)
    ensures Carries(PmcWord(e), PmcFlag(kind)) <==> HasOption(e.options, kind) || Carries(PmcCfgField(e), PmcFlag(kind))
  {
    PmcEach(e.options, kind);
    OrFoldMeans(o => OptionBits(PmcField, o), e.options, PmcFlag(kind), kind);
    if HasOption(e.options, kind) {
      PmcWordHas(e, kind);
    } else if Carries(PmcCfgField(e), PmcFlag(kind)) {
      PmcWordCarriesCfg(e, PmcFlag(kind));
    } else {
      PmcFlagSingle(PmcCfgField(e), kind);
      PmcWordLacks(e, kind);
    }
  }

  /**
   * Which flag bits the cfg field sets: a flag in bits 17..23 exactly when
   * the field is used and cfgBits has that bit (bit `k - 16`), the
   * transaction bits 32 and 33 exactly when the field sign-extends.
   */
  lemma PmcCfgFlag(e: PerfmonEvent, kind: OptionType)
    requires IsPmcFlag(kind)
    ensures Carries(PmcCfgField(e), PmcFlag(kind))
        <==> if kind == InTransaction || kind == InTransactionAbort then PmcCfgSignExtends(e)
             else PmcUsesCfg(e) && Carries((e.cfgBits as bv64) << 16, PmcFlag(kind))
  {
    if !PmcUsesCfg(e) {
      PmcFlagNonzero(kind);
      assert PmcCfgField(e) == 0;
    } else if kind == InTransaction || kind == InTransactionAbort {
      PmcCfgTransaction(e, kind);
    } else {
      PmcCfgLowFlag(e, kind);
    }
  }

  lemma PmcCfgTransaction(e: PerfmonEvent, kind: OptionType)
    requires kind == InTransaction || kind == InTransactionAbort
    ensures Carries(PmcCfgField(e), PmcFlag(kind)) <==> PmcCfgSignExtends(e)
  {
    if PmcCfgSignExtends(e) {
      PmcCfgCarries(e, PmcFlag(kind));
    } else {
      PmcCfgFieldBits(e);
      AvoidsPart(PmcCfgField(e), 0xFFFF_FFFF_0000_FFFF, PmcFlag(kind));
      AvoidsNotCarries(PmcCfgField(e), PmcFlag(kind));
    }
  }

  lemma PmcCfgLowFlag(e: PerfmonEvent, kind: OptionType)
    requires PmcUsesCfg(e) && IsPmcFlag(kind) && kind != InTransaction && kind != InTransactionAbort
    ensures Carries(PmcCfgField(e), PmcFlag(kind)) <==> Carries((e.cfgBits as bv64) << 16, PmcFlag(kind))
  {
    PmcCfgFieldBits(e);
    ByteTwoCarries(PmcCfgField(e), e.cfgBits as bv64, PmcFlag(kind));
  }

  /** A mask inside bits 16..23 is carried by a word exactly when it is carried by that word's byte 2 put back at bit 16. */
  lemma ByteTwoCarries(x: bv64, c: bv64, m: bv64)
    requires (x >> 16) & 0xFF == c && m & 0xFF_0000 == m
    ensures Carries(x, m) <==> Carries(c << 16, m)
  {
  }

  /** A flag is a single bit: a word either carries it or avoids it. */
  lemma PmcFlagSingle(x: bv64, kind: OptionType)
    requires IsPmcFlag(kind) && !Carries(x, PmcFlag(kind))
    ensures Avoids(x, PmcFlag(kind))
  {
  }

  /** A sign-extending cfg field carries every mask of bits 32..63 into the word. */
  lemma PmcWordSignExtended(e: PerfmonEvent, m: bv64)
    requires PmcCfgSignExtends(e) && m & 0xFFFF_FFFF_0000_0000 == m
    ensures Carries(PmcWord(e), m)
  {
    PmcCfgCarries(e, m);
    PmcWordCarriesCfg(e, m);
  }

  lemma PmcCfgCarries(e: PerfmonEvent, m: bv64)
    requires PmcCfgSignExtends(e) && m & 0xFFFF_FFFF_0000_0000 == m
    ensures Carries(PmcCfgField(e), m)
  {
    CfgWide(e.cmask, e.cfgBits);
    CarriesPart(CfgShifted(e.cmask, e.cfgBits), 0xFFFF_FFFF_0000_0000, m);
  }

  /** Whatever the cfg field carries, the PMC word carries. */
  lemma PmcWordCarriesCfg(e: PerfmonEvent, m: bv64)
    requires Carries(PmcCfgField(e), m)
    ensures Carries(PmcWord(e), m)
  {
    MiddleCarries(Bit(22) | Bit(16) | EventSelect(e), PmcCfgField(e), OrOver(PmcField, e.options), m);
  }

  lemma PmcWordHas(e: PerfmonEvent, kind: OptionType)
    requires Carries(OrOver(PmcField, e.options), PmcFlag(kind))
    ensures Carries(PmcWord(e), PmcFlag(kind))
  {
    OrKeepRight(Bit(22) | Bit(16) | EventSelect(e) | PmcCfgField(e), OrOver(PmcField, e.options), PmcFlag(kind));
  }

  lemma PmcWordLacks(e: PerfmonEvent, kind: OptionType)
    requires IsPmcFlag(kind) && Avoids(PmcCfgField(e), PmcFlag(kind))
    requires Avoids(OrOver(PmcField, e.options), PmcFlag(kind))
    ensures !Carries(PmcWord(e), PmcFlag(kind))
  {
    PmcHeadAvoids(e, kind);
    OrNone(Bit(22) | Bit(16) | EventSelect(e) | PmcCfgField(e), OrOver(PmcField, e.options), PmcFlag(kind));
    PmcFlagNonzero(kind);
    AvoidsNotCarries(PmcWord(e), PmcFlag(kind));
  }

  /** Everything of the PMC word but the option bits avoids the flag when the cfg field does. */
  lemma PmcHeadAvoids(e: PerfmonEvent, kind: OptionType)
    requires IsPmcFlag(kind) && Avoids(PmcCfgField(e), PmcFlag(kind))
    ensures Avoids(Bit(22) | Bit(16) | EventSelect(e) | PmcCfgField(e), PmcFlag(kind))
  {
    PmcBaseAvoids(e, kind);
    OrNone(Bit(22) | Bit(16) | EventSelect(e), PmcCfgField(e), PmcFlag(kind));
  }

  /** Every PMC option stays inside bits 16..33. */
  lemma PmcOptionRange(o: EventOption)
    ensures Avoids(OptionBits(PmcField, o), 0xFFFF_FFFC_0000_FFFF)
  {
    PmcOptionShape(o);
    if o.kind == Threshold {
      ThresholdField(o.value);
      AvoidsPart((o.value & 0xFF) << 24, 0xFFFF_FFFF_00FF_FFFF, 0xFFFF_FFFC_0000_FFFF);
    } else if IsPmcFlag(o.kind) {
      PmcFlagRange(o.kind);
    } else {
      assert PmcFlag(o.kind) == 0;
    }
  }

  lemma PmcFlagRange(kind: OptionType)
    requires IsPmcFlag(kind)
    ensures Avoids(PmcFlag(kind), 0xFFFF_FFFC_0000_FFFF) && Avoids(PmcFlag(kind), 0xFF00_0000)
  {
  }

  /** Options other than THRESHOLD leave bits 24..31 alone. */
  lemma PmcOptionNoThreshold(o: EventOption)
    requires o.kind != Threshold
    ensures Avoids(OptionBits(PmcField, o), 0xFF00_0000)
  {
    PmcOptionShape(o);
    if IsPmcFlag(o.kind) {
      PmcFlagRange(o.kind);
    } else {
      assert PmcFlag(o.kind) == 0;
    }
  }

  lemma {:induction false} PmcEachRange(opts: seq<EventOption>)
    ensures EachAvoids(o => OptionBits(PmcField, o), opts, 0xFFFF_FFFC_0000_FFFF)
    decreases |opts|
  {
    if opts != [] {
      PmcEachRange(opts[..|opts| - 1]);
      PmcOptionRange(opts[|opts| - 1]);
    }
  }

  lemma {:induction false} PmcEachNoThreshold(opts: seq<EventOption>)
    requires !HasOption(opts, Threshold)
    ensures EachAvoids(o => OptionBits(PmcField, o), opts, 0xFF00_0000)
    decreases |opts|
  {
    if opts != [] {
      PmcEachNoThreshold(opts[..|opts| - 1]);
      PmcOptionNoThreshold(opts[|opts| - 1]);
    }
  }

  lemma PmcOptionsRange(opts: seq<EventOption>)
    ensures Avoids(OrOver(PmcField, opts), 0xFFFF_FFFC_0000_FFFF)
  {
    PmcEachRange(opts);
    OrFoldAvoids(o => OptionBits(PmcField, o), opts, 0xFFFF_FFFC_0000_FFFF);
  }

  /** The low 16 bits of the PMC word are the event select `(umask<<8) + eventId`. */
  lemma PmcWordSelect(e: PerfmonEvent)
    ensures PmcWord(e) & 0xFFFF == EventSelect(e)
  {
    var x := OrOver(PmcField, e.options);
    PmcOptionsRange(e.options);
    AvoidsPart(x, 0xFFFF_FFFC_0000_FFFF, 0xFFFF);
    PmcCfgFieldBits(e);
    PmcSelectOfBase(e);
    OrAvoided(Bit(22) | Bit(16) | EventSelect(e), PmcCfgField(e), 0xFFFF);
    OrAvoided(Bit(22) | Bit(16) | EventSelect(e) | PmcCfgField(e), x, 0xFFFF);
  }

  lemma PmcSelectOfBase(e: PerfmonEvent)
    ensures (Bit(22) | Bit(16) | EventSelect(e)) & 0xFFFF == EventSelect(e)
  {
    PmcBaseLiteral();
    EventSelectLow(e);
    OrAvoided(EventSelect(e), 0x41_0000, 0xFFFF);
  }

  /** The PMC word always has the enable bit 22 and the user-mode bit 16. */
  lemma PmcWordEnable(e: PerfmonEvent)
    ensures Carries(PmcWord(e), 0x41_0000)
  {
    PmcBaseLiteral();
    OrKeepLeft(Bit(22) | Bit(16), EventSelect(e), 0x41_0000);
    OrKeepLeft(Bit(22) | Bit(16) | EventSelect(e), PmcCfgField(e), 0x41_0000);
    OrKeepLeft(Bit(22) | Bit(16) | EventSelect(e) | PmcCfgField(e), OrOver(PmcField, e.options), 0x41_0000);
  }

  /**
   * No bit above 33 is set in a PMC word, unless the cfg field sign-extends;
   * then every bit from 32 up is set.
   */
  lemma PmcWordWidth(e: PerfmonEvent)
    ensures !PmcCfgSignExtends(e) ==> Avoids(PmcWord(e), 0xFFFF_FFFC_0000_0000)
    ensures PmcCfgSignExtends(e) ==> Carries(PmcWord(e), 0xFFFF_FFFF_0000_0000)
  {
    if PmcCfgSignExtends(e) {
      PmcWordSignExtended(e, 0xFFFF_FFFF_0000_0000);
    } else {
      PmcWordNarrow(e);
    }
  }

  lemma PmcWordNarrow(e: PerfmonEvent)
    requires !PmcCfgSignExtends(e)
    ensures Avoids(PmcWord(e), 0xFFFF_FFFC_0000_0000)
  {
    PmcBaseLiteral();
    EventSelectLow(e);
    AvoidsPart(EventSelect(e), 0xFFFF_FFFF_FFFF_0000, 0xFFFF_FFFC_0000_0000);
    OrNone(Bit(22) | Bit(16), EventSelect(e), 0xFFFF_FFFC_0000_0000);
    PmcCfgFieldBits(e);
    AvoidsPart(PmcCfgField(e), 0xFFFF_FFFF_0000_FFFF, 0xFFFF_FFFC_0000_0000);
    OrNone(Bit(22) | Bit(16) | EventSelect(e), PmcCfgField(e), 0xFFFF_FFFC_0000_0000);
    PmcOptionsRange(e.options);
    AvoidsPart(OrOver(PmcField, e.options), 0xFFFF_FFFC_0000_FFFF, 0xFFFF_FFFC_0000_0000);
    OrNone(Bit(22) | Bit(16) | EventSelect(e) | PmcCfgField(e), OrOver(PmcField, e.options), 0xFFFF_FFFC_0000_0000);
  }

  /**
   * Bits 24..31 of the PMC word hold only the threshold and the cmask of the
   * cfg field: with neither, they are clear.
   */
  lemma PmcWordNoThreshold(e: PerfmonEvent)
    requires !PmcUsesCfg(e) && !HasOption(e.options, Threshold)
    ensures Avoids(PmcWord(e), 0xFF00_0000)
  {
    PmcBaseLiteral();
    EventSelectLow(e);
    AvoidsPart(EventSelect(e), 0xFFFF_FFFF_FFFF_0000, 0xFF00_0000);
    OrNone(Bit(22) | Bit(16), EventSelect(e), 0xFF00_0000);
    OrNone(Bit(22) | Bit(16) | EventSelect(e), PmcCfgField(e), 0xFF00_0000);
    PmcEachNoThreshold(e.options);
    OrFoldAvoids(o => OptionBits(PmcField, o), e.options, 0xFF00_0000);
    OrNone(Bit(22) | Bit(16) | EventSelect(e) | PmcCfgField(e), OrOver(PmcField, e.options), 0xFF00_0000);
  }

  /** Every option carries `m` when it has kind `kind` and avoids it otherwise. */
  lemma {:induction false} EachMeansAll(g: EventOption -> bv64, opts: seq<EventOption>, m: bv64, kind: OptionType)
    requires forall o: EventOption :: if o.kind == kind then Carries(g(o), m) else Avoids(g(o), m)
    ensures EachMeans(g, opts, m, kind)
    decreases |opts|
  {
    if opts != [] {
      EachMeansAll(g, opts[..|opts| - 1], m, kind);
    }
  }

  lemma {:induction false} EachAvoidsAll(g: EventOption -> bv64, opts: seq<EventOption>, m: bv64)
    requires forall o: EventOption :: Avoids(g(o), m)
    ensures EachAvoids(g, opts, m)
    decreases |opts|
  {
    if opts != [] {
      EachAvoidsAll(g, opts[..|opts| - 1], m);
    }
  }

  // ------------------------------------------------------- PMC threshold

  lemma PmcOptionThreshold(o: EventOption)
    ensures Part(ThresholdByte, OptionBits(PmcField, o)) == if o.kind == Threshold then o.value & 0xFF else 0
  {
    PmcOptionShape(o);
    if o.kind != Threshold && IsPmcFlag(o.kind) {
      PmcFlagRange(o.kind);
    }
  }

  /**
   * Bits 24..31 of the PMC word: every THRESHOLD value masked to 8 bits and
   * placed at bit 24, ORed with the cmask when the cfg field is used.
   */
  lemma PmcWordThreshold(e: PerfmonEvent)
    ensures Part(ThresholdByte, PmcWord(e)) == (if PmcUsesCfg(e) then e.cmask as bv64 else 0) | KindOr(e.options, Threshold, 0xFF)
  {
    var base := Bit(22) | Bit(16) | EventSelect(e);
    PmcBaseLiteral();
    EventSelectLow(e);
    assert Part(ThresholdByte, base) == 0;
    PmcCfgFieldBits(e);
    PartOr(ThresholdByte, base, PmcCfgField(e));
    forall o ensures Part(ThresholdByte, OptionBits(PmcField, o)) == KindValue(o, Threshold, 0xFF) {
      PmcOptionThreshold(o);
    }
    PartOfFold(o => OptionBits(PmcField, o), ThresholdByte, e.options, Threshold, 0xFF);
    PartOr(ThresholdByte, base | PmcCfgField(e), OrOver(PmcField, e.options));
  }

  /** With no cfg field and exactly one THRESHOLD option, bits 24..31 hold its value masked to 8 bits. */
  lemma PmcWordOneThreshold(e: PerfmonEvent, i: nat)
    requires !PmcUsesCfg(e) && i < |e.options| && e.options[i].kind == Threshold
    requires forall j :: 0 <= j < |e.options| && j != i ==> e.options[j].kind != Threshold
    ensures Part(ThresholdByte, PmcWord(e)) == e.options[i].value & 0xFF
  {
    PmcWordThreshold(e);
    KindOrOne(e.options, Threshold, 0xFF, i);
  }

  // ------------------------------------------------------- CBOX filters

  lemma CboxFilter0Option(o: EventOption)
    ensures Part(StateBits, OptionBits(CboxFilter0Field, o)) == if o.kind == State then o.value & 0x3F else 0
    ensures Part(ThreadBits, OptionBits(CboxFilter0Field, o)) == if o.kind == ThreadId then o.value & 0x3F else 0
    ensures Avoids(OptionBits(CboxFilter0Field, o), 0xFFFF_FFFF_FF81_FFC0)
  {
    assert Bit(6) - 1 == 0x3F;
  }

  /**
   * CBOX filter 0: the STATE values, cut to 6 bits, at bit 17 and the TID
   * values, cut to 6 bits, at bit 0; no other bit is set.
   */
  lemma CboxFilter0Fields(e: PerfmonEvent)
    ensures Part(StateBits, OrOver(CboxFilter0Field, e.options)) == KindOr(e.options, State, 0x3F)
    ensures Part(ThreadBits, OrOver(CboxFilter0Field, e.options)) == KindOr(e.options, ThreadId, 0x3F)
    ensures Avoids(OrOver(CboxFilter0Field, e.options), 0xFFFF_FFFF_FF81_FFC0)
  {
    var g := o => OptionBits(CboxFilter0Field, o);
    forall o ensures Part(StateBits, g(o)) == (if o.kind == State then o.value & 0x3F else 0)
      && Part(ThreadBits, g(o)) == (if o.kind == ThreadId then o.value & 0x3F else 0)
      && Avoids(g(o), 0xFFFF_FFFF_FF81_FFC0) {
      CboxFilter0Option(o);
    }
    PartOfFold(g, StateBits, e.options, State, 0x3F);
    PartOfFold(g, ThreadBits, e.options, ThreadId, 0x3F);
    EachAvoidsAll(g, e.options, 0xFFFF_FFFF_FF81_FFC0);
    OrFoldAvoids(g, e.options, 0xFFFF_FFFF_FF81_FFC0);
  }

  lemma CboxFilter1Option(o: EventOption)
    ensures Part(NodeBits, OptionBits(CboxFilter1Field, o)) == if o.kind == NodeId then o.value & 0xFFFF else 0
    ensures Part(OpcodeBits, OptionBits(CboxFilter1Field, o)) == if o.kind == Opcode then o.value & 0x1F else 0
    ensures Part(MatchBits, OptionBits(CboxFilter1Field, o)) == if o.kind == Match0 then o.value & 0x3 else 0
    ensures if o.kind == Opcode then Carries(OptionBits(CboxFilter1Field, o), 0x1800_0000)
            else Avoids(OptionBits(CboxFilter1Field, o), 0x1800_0000)
    ensures Avoids(OptionBits(CboxFilter1Field, o), 0xFFFF_FFFF_260F_0000)
  {
    CboxFilter1Parts(o);
    CboxFilter1Opcode(o);
  }

  lemma CboxFilter1Parts(o: EventOption)
    ensures Part(NodeBits, OptionBits(CboxFilter1Field, o)) == if o.kind == NodeId then o.value & 0xFFFF else 0
    ensures Part(OpcodeBits, OptionBits(CboxFilter1Field, o)) == if o.kind == Opcode then o.value & 0x1F else 0
    ensures Part(MatchBits, OptionBits(CboxFilter1Field, o)) == if o.kind == Match0 then o.value & 0x3 else 0
    ensures Avoids(OptionBits(CboxFilter1Field, o), 0xFFFF_FFFF_260F_0000)
  {
    if o.kind == Opcode {
      Filter1OpcodeCase(o);
    } else if o.kind == NodeId {
      Filter1NodeCase(o);
    } else if o.kind == Match0 {
      Filter1MatchCase(o);
    } else {
      Filter1OtherCase(o);
    }
  }

  lemma Filter1OpcodeCase(o: EventOption)
    requires o.kind == Opcode
    ensures Part(NodeBits, OptionBits(CboxFilter1Field, o)) == 0
    ensures Part(OpcodeBits, OptionBits(CboxFilter1Field, o)) == o.value & 0x1F
    ensures Part(MatchBits, OptionBits(CboxFilter1Field, o)) == 0
    ensures Avoids(OptionBits(CboxFilter1Field, o), 0xFFFF_FFFF_260F_0000)
  {
    assert OptionBits(CboxFilter1Field, o) == (0x3 << 27) | (LowBits(o.value, 5) << 20);
    OpcodeWordParts(o.value);
  }

  lemma Filter1NodeCase(o: EventOption)
    requires o.kind == NodeId
    ensures Part(NodeBits, OptionBits(CboxFilter1Field, o)) == o.value & 0xFFFF
    ensures Part(OpcodeBits, OptionBits(CboxFilter1Field, o)) == 0
    ensures Part(MatchBits, OptionBits(CboxFilter1Field, o)) == 0
    ensures Avoids(OptionBits(CboxFilter1Field, o), 0xFFFF_FFFF_260F_0000)
  {
    NodeWordParts(o.value);
  }

  lemma Filter1MatchCase(o: EventOption)
    requires o.kind == Match0
    ensures Part(NodeBits, OptionBits(CboxFilter1Field, o)) == 0
    ensures Part(OpcodeBits, OptionBits(CboxFilter1Field, o)) == 0
    ensures Part(MatchBits, OptionBits(CboxFilter1Field, o)) == o.value & 0x3
    ensures Avoids(OptionBits(CboxFilter1Field, o), 0xFFFF_FFFF_260F_0000)
  {
    MatchWordParts(o.value);
  }

  lemma Filter1OtherCase(o: EventOption)
    requires o.kind != Opcode && o.kind != NodeId && o.kind != Match0
    ensures OptionBits(CboxFilter1Field, o) == 0
  {
  }

  lemma OpcodeWordParts(v: bv64)
    ensures Part(NodeBits, (0x3 << 27) | (LowBits(v, 5) << 20)) == 0
    ensures Part(OpcodeBits, (0x3 << 27) | (LowBits(v, 5) << 20)) == v & 0x1F
    ensures Part(MatchBits, (0x3 << 27) | (LowBits(v, 5) << 20)) == 0
    ensures Avoids((0x3 << 27) | (LowBits(v, 5) << 20), 0xFFFF_FFFF_260F_0000)
  {
    assert Bit(5) - 1 == 0x1F;
  }

  lemma NodeWordParts(v: bv64)
    ensures Part(NodeBits, LowBits(v, 16)) == v & 0xFFFF
    ensures Part(OpcodeBits, LowBits(v, 16)) == 0
    ensures Part(MatchBits, LowBits(v, 16)) == 0
    ensures Avoids(LowBits(v, 16), 0xFFFF_FFFF_260F_0000)
  {
    assert Bit(16) - 1 == 0xFFFF;
  }

  lemma MatchWordParts(v: bv64)
    ensures Part(NodeBits, LowBits(v, 2) << 30) == 0
    ensures Part(OpcodeBits, LowBits(v, 2) << 30) == 0
    ensures Part(MatchBits, LowBits(v, 2) << 30) == v & 0x3
    ensures Avoids(LowBits(v, 2) << 30, 0xFFFF_FFFF_260F_0000)
  {
    assert Bit(2) - 1 == 0x3;
  }

  lemma CboxFilter1Opcode(o: EventOption)
    ensures if o.kind == Opcode then Carries(OptionBits(CboxFilter1Field, o), 0x1800_0000)
            else Avoids(OptionBits(CboxFilter1Field, o), 0x1800_0000)
  {
    if o.kind == Opcode {
      OpcodeFlags(o.value);
    } else {
      assert Bit(16) - 1 == 0xFFFF && Bit(2) - 1 == 0x3;
    }
  }

  /** An OPCODE option always sets bits 27 and 28 besides its opcode. */
  lemma OpcodeFlags(v: bv64)
    ensures Carries((0x3 << 27) | (LowBits(v, 5) << 20), 0x1800_0000)
  {
    assert Bit(5) - 1 == 0x1F;
  }

  /**
   * CBOX filter 1: the NID values, cut to 16 bits, at bit 0, the OPCODE
   * values, cut to 5 bits, at bit 20, the MATCH0 values, cut to 2 bits, at
   * bit 30, and bits 27 and 28 exactly when an OPCODE option is given; no
   * other bit is set.
   */
  lemma CboxFilter1Fields(e: PerfmonEvent)
    ensures Part(NodeBits, OrOver(CboxFilter1Field, e.options)) == KindOr(e.options, NodeId, 0xFFFF)
    ensures Part(OpcodeBits, OrOver(CboxFilter1Field, e.options)) == KindOr(e.options, Opcode, 0x1F)
    ensures Part(MatchBits, OrOver(CboxFilter1Field, e.options)) == KindOr(e.options, Match0, 0x3)
    ensures Carries(OrOver(CboxFilter1Field, e.options), 0x1800_0000) <==> HasOption(e.options, Opcode)
    ensures Avoids(OrOver(CboxFilter1Field, e.options), 0xFFFF_FFFF_260F_0000)
  {
    CboxFilter1Node(e);
    CboxFilter1OpcodeField(e);
    CboxFilter1Match(e);
    CboxFilter1OpcodeFlag(e);
    CboxFilter1Spare(e);
  }

  lemma CboxFilter1Node(e: PerfmonEvent)
    ensures Part(NodeBits, OrOver(CboxFilter1Field, e.options)) == KindOr(e.options, NodeId, 0xFFFF)
  {
    var g := o => OptionBits(CboxFilter1Field, o);
    forall o ensures Part(NodeBits, g(o)) == KindValue(o, NodeId, 0xFFFF) {
      CboxFilter1Option(o);
    }
    PartOfFold(g, NodeBits, e.options, NodeId, 0xFFFF);
  }

  lemma CboxFilter1OpcodeField(e: PerfmonEvent)
    ensures Part(OpcodeBits, OrOver(CboxFilter1Field, e.options)) == KindOr(e.options, Opcode, 0x1F)
  {
    var g := o => OptionBits(CboxFilter1Field, o);
    forall o ensures Part(OpcodeBits, g(o)) == KindValue(o, Opcode, 0x1F) {
      CboxFilter1Option(o);
    }
    PartOfFold(g, OpcodeBits, e.options, Opcode, 0x1F);
  }

  lemma CboxFilter1Match(e: PerfmonEvent)
    ensures Part(MatchBits, OrOver(CboxFilter1Field, e.options)) == KindOr(e.options, Match0, 0x3)
  {
    var g := o => OptionBits(CboxFilter1Field, o);
    forall o ensures Part(MatchBits, g(o)) == KindValue(o, Match0, 0x3) {
      CboxFilter1Option(o);
    }
    PartOfFold(g, MatchBits, e.options, Match0, 0x3);
  }

  lemma CboxFilter1OpcodeFlag(e: PerfmonEvent)
    ensures Carries(OrOver(CboxFilter1Field, e.options), 0x1800_0000) <==> HasOption(e.options, Opcode)
  {
    var g := o => OptionBits(CboxFilter1Field, o);
    forall o: EventOption ensures if o.kind == Opcode then Carries(g(o), 0x1800_0000) else Avoids(g(o), 0x1800_0000) {
      CboxFilter1Opcode(o);
    }
    EachMeansAll(g, e.options, 0x1800_0000, Opcode);
    OrFoldMeans(g, e.options, 0x1800_0000, Opcode);
  }

  lemma CboxFilter1Spare(e: PerfmonEvent)
    ensures Avoids(OrOver(CboxFilter1Field, e.options), 0xFFFF_FFFF_260F_0000)
  {
    var g := o => OptionBits(CboxFilter1Field, o);
    forall o: EventOption ensures Avoids(g(o), 0xFFFF_FFFF_260F_0000) {
      CboxFilter1Parts(o);
    }
    EachAvoidsAll(g, e.options, 0xFFFF_FFFF_260F_0000);
    OrFoldAvoids(g, e.options, 0xFFFF_FFFF_260F_0000);
  }

  lemma CboxTidOption(o: EventOption)
    ensures if o.kind == ThreadId then Carries(OptionBits(CboxField, o), 0x8_0000) else Avoids(OptionBits(CboxField, o), 0x8_0000)
  {
  }

  /** A TID option also sets bit 19 of the CBOX word, and nothing else does. */
  lemma CboxWordTid(e: PerfmonEvent)
    ensures Carries(CboxWord(e), 0x8_0000) <==> HasOption(e.options, ThreadId)
  {
    var g := o => OptionBits(CboxField, o);
    forall o: EventOption ensures if o.kind == ThreadId then Carries(g(o), 0x8_0000) else Avoids(g(o), 0x8_0000) {
      CboxTidOption(o);
    }
    EachMeansAll(g, e.options, 0x8_0000, ThreadId);
    UncoreBaseLiterals();
    EventSelectLow(e);
    assert Avoids(Bit(22) | EventSelect(e), 0x8_0000);
    FoldWordFlag(g, e.options, Bit(22) | EventSelect(e), CboxWord(e), 0x8_0000, ThreadId);
  }

  // ------------------------------------------------------- WBOX umask

  lemma WboxOccupancyOption(o: EventOption)
    ensures Part(OccupancyBits, OptionBits(WboxField, o)) == if o.kind == Occupancy then o.value & 0x3 else 0
  {
  }

  lemma WboxSelectOccupancy(e: PerfmonEvent)
    ensures Part(OccupancyBits, WboxSelect(e)) == if 0x00 < e.umask <= 0x3 then e.umask as bv64 else 0
  {
    UncoreBaseLiterals();
  }

  lemma WboxWordOccupancy(e: PerfmonEvent)
    ensures Part(OccupancyBits, WboxWord(e)) == Part(OccupancyBits, WboxSelect(e)) | Part(OccupancyBits, OrOver(WboxField, e.options))
  {
    PartOfOr(OccupancyBits, WboxWord(e), WboxSelect(e), OrOver(WboxField, e.options));
  }

  lemma WboxSelectNoOccupancy(e: PerfmonEvent)
    requires !(0x00 < e.umask <= 0x3)
    ensures Part(OccupancyBits, WboxSelect(e)) == 0
  {
    WboxSelectOccupancy(e);
  }

  /**
   * Bits 14..15 of the WBOX word: a umask of 1..3, ORed with every OCCUPANCY
   * value cut to 2 bits; any other umask, 0xFF included, contributes nothing.
   */
  lemma WboxWordUmask(e: PerfmonEvent)
    ensures Part(OccupancyBits, WboxWord(e))
         == (if 0x00 < e.umask <= 0x3 then e.umask as bv64 else 0) | KindOr(e.options, Occupancy, 0x3)
  {
    if 0x00 < e.umask <= 0x3 {
      WboxWordUmaskSet(e);
    } else {
      WboxWordUmaskUnset(e);
      OrZero(KindOr(e.options, Occupancy, 0x3));
    }
  }

  lemma WboxWordUmaskSet(e: PerfmonEvent)
    requires 0x00 < e.umask <= 0x3
    ensures Part(OccupancyBits, WboxWord(e)) == e.umask as bv64 | KindOr(e.options, Occupancy, 0x3)
  {
    WboxFoldOccupancy(e.options);
    WboxSelectOccupancy(e);
    WboxWordOccupancy(e);
  }

  lemma WboxWordUmaskUnset(e: PerfmonEvent)
    requires !(0x00 < e.umask <= 0x3)
    ensures Part(OccupancyBits, WboxWord(e)) == 0 | KindOr(e.options, Occupancy, 0x3)
  {
    WboxFoldOccupancy(e.options);
    WboxSelectNoOccupancy(e);
    WboxWordOccupancy(e);
  }

  lemma WboxFoldOccupancy(opts: seq<EventOption>)
    ensures Part(OccupancyBits, OrOver(WboxField, opts)) == KindOr(opts, Occupancy, 0x3)
  {
    var g := o => OptionBits(WboxField, o);
    forall o ensures Part(OccupancyBits, g(o)) == KindValue(o, Occupancy, 0x3) {
      WboxOccupancyOption(o);
    }
    PartOfFold(g, OccupancyBits, opts, Occupancy, 0x3);
  }

  // ------------------------------------------------ flags of a folded word

  /** A word `head | fold` carries `m` when some option of kind `kind` does. */
  lemma WordFlagHas(g: EventOption -> bv64, opts: seq<EventOption>, head: bv64, w: bv64, m: bv64, kind: OptionType)
    requires EachMeans(g, opts, m, kind) && HasOption(opts, kind) && w == head | OrFold(g, opts)
    ensures Carries(w, m)
  {
    OrFoldHas(g, opts, m, kind);
    OrKeepRight(head, OrFold(g, opts), m);
  }

  /** A word `head | fold` whose head avoids `m` lacks `m` when no option has kind `kind`. */
  lemma WordFlagLacks(g: EventOption -> bv64, opts: seq<EventOption>, head: bv64, w: bv64, m: bv64, kind: OptionType)
    requires EachMeans(g, opts, m, kind) && !HasOption(opts, kind) && Avoids(head, m) && m != 0
    requires w == head | OrFold(g, opts)
    ensures !Carries(w, m)
  {
    OrFoldLacks(g, opts, m, kind);
    OrNone(head, OrFold(g, opts), m);
    AvoidsNotCarries(w, m);
  }

  // ------------------------------------------- UBOX, CBOX, WBOX, BOX, MBOXFIX

  /** The edge (18) and invert (23) bits the uncore encoders share. */
  function CommonFlag(kind: OptionType): bv64
  {
    if kind == Edge then 0x4_0000 else if kind == Invert then 0x80_0000 else 0
  }

  predicate IsCommonFlag(kind: OptionType)
  {
    kind == Edge || kind == Invert
  }

  /** The uncore families whose switch has EDGE and INVERT. */
  predicate IsUncoreFamily(f: Field)
  {
    f == UboxField || f == CboxField || f == WboxField || f == BoxField || f == MboxFixField
  }

  lemma CommonFlagBits(kind: OptionType)
    requires IsCommonFlag(kind)
    ensures CommonFlag(kind) != 0 && Carries(CommonFlag(kind), CommonFlag(kind))
    ensures Avoids(0xFFFF_FFFF_FFFF_0000 & 0xFFFF_FFFF_FF3B_FFFF, CommonFlag(kind))
  {
  }

  /** Everything the uncore switches add besides edge and invert avoids both of those bits. */
  lemma UncoreOtherAvoids(f: Field, o: EventOption, kind: OptionType)
    requires IsUncoreFamily(f) && IsCommonFlag(kind) && o.kind != Edge && o.kind != Invert
    ensures Avoids(OptionBits(f, o), CommonFlag(kind))
  {
    var v := o.value;
    if o.kind == Threshold {
      MaskedShiftAvoids(v, kind);
    } else if o.kind == Occupancy && f == WboxField {
      OccupancyAvoids(v, kind);
    } else {
      UncoreLiteralAvoids(f, o, kind);
    }
  }

  lemma MaskedShiftAvoids(v: bv64, kind: OptionType)
    requires IsCommonFlag(kind)
    ensures Avoids((v & 0xFF) << 24, CommonFlag(kind)) && Avoids((v & 0x1F) << 24, CommonFlag(kind))
  {
  }

  lemma OccupancyAvoids(v: bv64, kind: OptionType)
    requires IsCommonFlag(kind)
    ensures Avoids((v & 0x3) << 14, CommonFlag(kind))
  {
  }

  lemma UncoreLiteralAvoids(f: Field, o: EventOption, kind: OptionType)
    requires IsUncoreFamily(f) && IsCommonFlag(kind) && o.kind != Edge && o.kind != Invert
    requires o.kind != Threshold && !(o.kind == Occupancy && f == WboxField)
    ensures Avoids(OptionBits(f, o), CommonFlag(kind))
  {
    var w := OptionBits(f, o);
    if f == CboxField {
      assert w == 0 || w == Bit(19);
    } else if f == WboxField {
      assert w == 0 || w == Bit(30) || w == Bit(31);
    } else {
      assert w == 0;
    }
    LiteralAvoids(kind);
  }

  /** The literal bits the uncore switches set besides edge and invert. */
  lemma LiteralAvoids(kind: OptionType)
    requires IsCommonFlag(kind)
    ensures Avoids(0, CommonFlag(kind)) && Avoids(Bit(19), CommonFlag(kind))
    ensures Avoids(Bit(30), CommonFlag(kind)) && Avoids(Bit(31), CommonFlag(kind))
  {
  }

  lemma UncoreOption(f: Field, o: EventOption, kind: OptionType)
    requires IsUncoreFamily(f) && IsCommonFlag(kind) && (kind == Invert || f != MboxFixField)
    ensures o.kind == kind ==> Carries(OptionBits(f, o), CommonFlag(kind))
    ensures o.kind != kind ==> Avoids(OptionBits(f, o), CommonFlag(kind))
  {
    if o.kind == kind {
      CommonFlagBits(kind);
    } else if o.kind == Edge || o.kind == Invert {
      UncoreOtherFlag(f, o, kind);
    } else {
      UncoreOtherAvoids(f, o, kind);
    }
  }

  /** Edge does not touch the invert bit and vice versa. */
  lemma UncoreOtherFlag(f: Field, o: EventOption, kind: OptionType)
    requires IsUncoreFamily(f) && IsCommonFlag(kind) && IsCommonFlag(o.kind) && o.kind != kind
    ensures Avoids(OptionBits(f, o), CommonFlag(kind))
  {
  }

  lemma {:induction false} UncoreEach(f: Field, opts: seq<EventOption>, kind: OptionType)
    requires IsUncoreFamily(f) && IsCommonFlag(kind) && (kind == Invert || f != MboxFixField)
    ensures EachMeans(o => OptionBits(f, o), opts, CommonFlag(kind), kind)
    decreases |opts|
  {
    if opts != [] {
      UncoreEach(f, opts[..|opts| - 1], kind);
      UncoreOption(f, opts[|opts| - 1], kind);
    }
  }

  /** A head made of bits 20 and 22 and an event select avoids the edge and invert bits. */
  lemma SelectHeadAvoids(fixed: bv64, es: bv64, kind: OptionType)
    requires IsCommonFlag(kind) && Avoids(fixed, 0x80_0000 | 0x4_0000) && Avoids(es, 0xFFFF_FFFF_FFFF_0000)
    ensures Avoids(fixed | es, CommonFlag(kind))
  {
    AvoidsPart(fixed, 0x80_0000 | 0x4_0000, CommonFlag(kind));
    AvoidsPart(es, 0xFFFF_FFFF_FFFF_0000, CommonFlag(kind));
    OrNone(fixed, es, CommonFlag(kind));
  }

  lemma UncoreBaseLiterals()
    ensures Bit(22) | Bit(20) == 0x50_0000 && Bit(22) == 0x40_0000 && Bit(20) == 0x10_0000 && Bit(21) == 0x20_0000
  {
  }

  /** A word `head | fold` with a head that avoids the flag has it exactly with an option of that kind. */
  lemma FoldWordFlag(g: EventOption -> bv64, opts: seq<EventOption>, head: bv64, w: bv64, m: bv64, kind: OptionType)
    requires EachMeans(g, opts, m, kind) && Avoids(head, m) && m != 0 && w == head | OrFold(g, opts)
    ensures Carries(w, m) <==> HasOption(opts, kind)
  {
    if HasOption(opts, kind) {
      WordFlagHas(g, opts, head, w, m, kind);
    } else {
      WordFlagLacks(g, opts, head, w, m, kind);
    }
  }

  /** The UBOX word has edge (18) and invert (23) exactly with those options. */
  lemma UboxWordFlag(e: PerfmonEvent, kind: OptionType)
    requires IsCommonFlag(kind)
    ensures Carries(UboxWord(e), CommonFlag(kind)) <==> HasOption(e.options, kind)
  {
    UboxHeadAvoids(e, kind);
    UncoreEach(UboxField, e.options, kind);
    CommonFlagBits(kind);
    FoldWordFlag(o => OptionBits(UboxField, o), e.options, Bit(22) | Bit(20) | EventSelect(e), UboxWord(e), CommonFlag(kind), kind);
  }

  lemma UboxHeadAvoids(e: PerfmonEvent, kind: OptionType)
    requires IsCommonFlag(kind)
    ensures Avoids(Bit(22) | Bit(20) | EventSelect(e), CommonFlag(kind))
  {
    UncoreBaseLiterals();
    EventSelectLow(e);
    SelectHeadAvoids(Bit(22) | Bit(20), EventSelect(e), kind);
  }

  /** The CBOX word has edge (18) and invert (23) exactly with those options. */
  lemma CboxWordFlag(e: PerfmonEvent, kind: OptionType)
    requires IsCommonFlag(kind)
    ensures Carries(CboxWord(e), CommonFlag(kind)) <==> HasOption(e.options, kind)
  {
    CboxHeadAvoids(e, kind);
    UncoreEach(CboxField, e.options, kind);
    CommonFlagBits(kind);
    FoldWordFlag(o => OptionBits(CboxField, o), e.options, Bit(22) | EventSelect(e), CboxWord(e), CommonFlag(kind), kind);
  }

  lemma CboxHeadAvoids(e: PerfmonEvent, kind: OptionType)
    requires IsCommonFlag(kind)
    ensures Avoids(Bit(22) | EventSelect(e), CommonFlag(kind))
  {
    UncoreBaseLiterals();
    EventSelectLow(e);
    SelectHeadAvoids(Bit(22), EventSelect(e), kind);
  }

  /** The unarmed MBOX/BBOX/IBOX/PBOX word has edge (18) and invert (23) exactly with those options. */
  lemma BoxWordFlag(e: PerfmonEvent, kind: OptionType)
    requires IsCommonFlag(kind)
    ensures Carries(BoxWord(e), CommonFlag(kind)) <==> HasOption(e.options, kind)
  {
    BoxHeadAvoids(e, kind);
    UncoreEach(BoxField, e.options, kind);
    CommonFlagBits(kind);
    FoldWordFlag(o => OptionBits(BoxField, o), e.options, Bit(20) | EventSelect(e), BoxWord(e), CommonFlag(kind), kind);
  }

  lemma BoxHeadAvoids(e: PerfmonEvent, kind: OptionType)
    requires IsCommonFlag(kind)
    ensures Avoids(Bit(20) | EventSelect(e), CommonFlag(kind))
  {
    UncoreBaseLiterals();
    EventSelectLow(e);
    SelectHeadAvoids(Bit(20), EventSelect(e), kind);
  }

  lemma WboxSelectAvoids(e: PerfmonEvent, kind: OptionType)
    requires IsCommonFlag(kind)
    ensures Avoids(WboxSelect(e), CommonFlag(kind))
  {
    UncoreBaseLiterals();
    if 0x00 < e.umask <= 0x3 {
      WboxUmaskAvoids(e.eventId, e.umask, kind);
    } else if e.umask != 0xFF {
      WboxPlainAvoids(e.eventId, kind);
    }
  }

  lemma WboxUmaskAvoids(id: bv8, umask: bv8, kind: OptionType)
    requires IsCommonFlag(kind) && umask <= 0x3
    ensures Avoids(0x50_0000 | (id as bv64) | ((umask as bv64) << 14), CommonFlag(kind))
  {
  }

  lemma WboxPlainAvoids(id: bv8, kind: OptionType)
    requires IsCommonFlag(kind)
    ensures Avoids(0x50_0000 | (id as bv64), CommonFlag(kind))
  {
  }

  /** The WBOX word has edge (18) and invert (23) exactly with those options. */
  lemma WboxWordFlag(e: PerfmonEvent, kind: OptionType)
    requires IsCommonFlag(kind)
    ensures Carries(WboxWord(e), CommonFlag(kind)) <==> HasOption(e.options, kind)
  {
    WboxSelectAvoids(e, kind);
    UncoreEach(WboxField, e.options, kind);
    CommonFlagBits(kind);
    FoldWordFlag(o => OptionBits(WboxField, o), e.options, WboxSelect(e), WboxWord(e), CommonFlag(kind), kind);
  }

  /** The MBOXFIX word has the invert bit (23) exactly with an INVERT option. */
  lemma MboxFixWordInvert(e: PerfmonEvent)
    ensures Carries(MboxFixWord(e), 0x80_0000) <==> HasOption(e.options, Invert)
  {
    UncoreEach(MboxFixField, e.options, Invert);
    if HasOption(e.options, Invert) {
      WordFlagHas(o => OptionBits(MboxFixField, o), e.options, Bit(20) | Bit(22), MboxFixWord(e), 0x80_0000, Invert);
    } else {
      UncoreBaseLiterals();
      WordFlagLacks(o => OptionBits(MboxFixField, o), e.options, Bit(20) | Bit(22), MboxFixWord(e), 0x80_0000, Invert);
    }
  }
}
