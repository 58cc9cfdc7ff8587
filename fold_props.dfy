/**
 * Multi-bit fields of the words the option loops build: a field read back
 * from an option fold is the OR of what each option put there.
 */
module FoldProps {

  import opened PerfmonTypes
  import opened Encoders

  /** The multi-bit fields the option loops fill, each read back from its word. */
  datatype Slice =
    | ThresholdByte   // bits 24..31 of a PMC word
    | StateBits       // bits 17..22 of CBOX filter 0
    | ThreadBits      // bits 0..5 of CBOX filter 0
    | NodeBits        // bits 0..15 of CBOX filter 1
    | OpcodeBits      // bits 20..24 of CBOX filter 1
    | MatchBits       // bits 30..31 of CBOX filter 1
    | OccupancyBits   // bits 14..15 of a WBOX word

  function Part(s: Slice, x: bv64): bv64
  {
    match s
    case ThresholdByte => (x >> 24) & 0xFF
    case StateBits => (x >> 17) & 0x3F
    case ThreadBits => x & 0x3F
    case NodeBits => x & 0xFFFF
    case OpcodeBits => (x >> 20) & 0x1F
    case MatchBits => (x >> 30) & 0x3
    case OccupancyBits => (x >> 14) & 0x3
  }

  lemma PartOr(s: Slice, a: bv64, b: bv64)
    ensures Part(s, a | b) == Part(s, a) | Part(s, b)
  {
    match s
    case ThresholdByte =>
    case StateBits =>
    case ThreadBits =>
    case NodeBits =>
    case OpcodeBits =>
    case MatchBits =>
    case OccupancyBits =>
  }

  /** PartOr for a word already known to be the OR of two others. */
  lemma PartOfOr(s: Slice, w: bv64, a: bv64, b: bv64)
    requires w == a | b
    ensures Part(s, w) == Part(s, a) | Part(s, b)
  {
    PartOr(s, a, b);
  }

  lemma OrZero(x: bv64)
    ensures 0 | x == x && x | 0 == x
  {
  }

  lemma PartZero(s: Slice)
    ensures Part(s, 0) == 0
  {
    match s
    case ThresholdByte =>
    case StateBits =>
    case ThreadBits =>
    case NodeBits =>
    case OpcodeBits =>
    case MatchBits =>
    case OccupancyBits =>
  }

  /** The OR of the values of the options of kind `k`, each cut to `mask`. */
  function KindOr(opts: seq<EventOption>, k: OptionType, mask: bv64): bv64
  {
    OrFold(o => KindValue(o, k, mask), opts)
  }

  function KindValue(o: EventOption, k: OptionType, mask: bv64): bv64
  {
    if o.kind == k then o.value & mask else 0
  }

  /**
   * A view of a word that distributes over OR sees in an option fold the
   * fold of what it sees in each option.
   */
  lemma {:induction false} ViewOfFold(g: EventOption -> bv64, view: bv64 -> bv64, h: EventOption -> bv64, opts: seq<EventOption>)
    requires view(0) == 0
    requires forall a: bv64, b: bv64 :: view(a | b) == view(a) | view(b)
    requires forall o: EventOption :: view(g(o)) == h(o)
    ensures view(OrFold(g, opts)) == OrFold(h, opts)
    decreases |opts|
  {
    if opts != [] {
      ViewOfFold(g, view, h, opts[..|opts| - 1]);
      ViewStep(g, view, h, opts);
    }
  }

  lemma ViewStep(g: EventOption -> bv64, view: bv64 -> bv64, h: EventOption -> bv64, opts: seq<EventOption>)
    requires opts != []
    requires forall a: bv64, b: bv64 :: view(a | b) == view(a) | view(b)
    requires forall o: EventOption :: view(g(o)) == h(o)
    requires view(OrFold(g, opts[..|opts| - 1])) == OrFold(h, opts[..|opts| - 1])
    ensures view(OrFold(g, opts)) == OrFold(h, opts)
  {
  }

  /** ViewOfFold for slice `s`. */
  lemma PartOfFold(g: EventOption -> bv64, s: Slice, opts: seq<EventOption>, k: OptionType, mask: bv64)
    requires forall o: EventOption :: Part(s, g(o)) == KindValue(o, k, mask)
    ensures Part(s, OrFold(g, opts)) == KindOr(opts, k, mask)
  {
    PartZero(s);
    forall a: bv64, b: bv64 ensures Part(s, a | b) == Part(s, a) | Part(s, b) {
      PartOr(s, a, b);
    }
    ViewOfFold(g, x => Part(s, x), o => KindValue(o, k, mask), opts);
  }

  /** Index `i` holds the only option of kind `k`. */
  predicate OnlyAt(opts: seq<EventOption>, k: OptionType, i: nat)
  {
    i < |opts| && opts[i].kind == k && forall j :: 0 <= j < |opts| && j != i ==> opts[j].kind != k
  }

  lemma OnlyAtInit(opts: seq<EventOption>, k: OptionType, i: nat)
    requires OnlyAt(opts, k, i) && i < |opts| - 1
    ensures OnlyAt(opts[..|opts| - 1], k, i)
  {
    var init := opts[..|opts| - 1];
    forall j | 0 <= j < |init| && j != i ensures init[j].kind != k {
      assert init[j] == opts[j];
    }
  }

  /** No option of the list has kind `k`. */
  predicate NoneOf(opts: seq<EventOption>, k: OptionType)
  {
    forall j :: 0 <= j < |opts| ==> opts[j].kind != k
  }

  lemma NoneOfInit(opts: seq<EventOption>, k: OptionType)
    requires opts != [] && NoneOf(opts, k)
    ensures NoneOf(opts[..|opts| - 1], k)
  {
    var init := opts[..|opts| - 1];
    forall j | 0 <= j < |init| ensures init[j].kind != k {
      assert init[j] == opts[j];
    }
  }

  lemma OnlyAtLast(opts: seq<EventOption>, k: OptionType)
    requires opts != [] && OnlyAt(opts, k, |opts| - 1)
    ensures NoneOf(opts[..|opts| - 1], k)
  {
    var init := opts[..|opts| - 1];
    forall j | 0 <= j < |init| ensures init[j].kind != k {
      assert init[j] == opts[j];
    }
  }

  /** A single option among the list: KindOr is its value. */
  lemma {:induction false} KindOrOne(opts: seq<EventOption>, k: OptionType, mask: bv64, i: nat)
    requires OnlyAt(opts, k, i)
    ensures KindOr(opts, k, mask) == opts[i].value & mask
    decreases |opts|
  {
    if i == |opts| - 1 {
      OnlyAtLast(opts, k);
      KindOrNone(opts[..|opts| - 1], k, mask);
      KindOrAddOne(opts, k, mask);
    } else {
      OnlyAtInit(opts, k, i);
      KindOrOne(opts[..|opts| - 1], k, mask, i);
      KindOrAddNone(opts, k, mask);
    }
  }

  lemma {:induction false} KindOrNone(opts: seq<EventOption>, k: OptionType, mask: bv64)
    requires NoneOf(opts, k)
    ensures KindOr(opts, k, mask) == 0
    decreases |opts|
  {
    if opts != [] {
      var init := opts[..|opts| - 1];
      NoneOfInit(opts, k);
      KindOrNone(init, k, mask);
      KindOrAddNone(opts, k, mask);
    }
  }

  lemma KindOrAddOne(opts: seq<EventOption>, k: OptionType, mask: bv64)
    requires opts != [] && opts[|opts| - 1].kind == k && KindOr(opts[..|opts| - 1], k, mask) == 0
    ensures KindOr(opts, k, mask) == opts[|opts| - 1].value & mask
  {
  }

  lemma KindOrAddNone(opts: seq<EventOption>, k: OptionType, mask: bv64)
    requires opts != [] && opts[|opts| - 1].kind != k
    ensures KindOr(opts, k, mask) == KindOr(opts[..|opts| - 1], k, mask)
  {
  }
}
