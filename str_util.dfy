/**
 * The size-string parser of bench/src/strUtil.c: `str2int` over the C
 * library's `strtoul`, and `bstr_to_doubleSize`, which splits a string such
 * as "64kB" into a number and a two-character unit and turns it into a
 * count of array elements.
 */
module StrUtil {

  const EINVAL: int := 22
  const ULongMax: nat := 0xFFFF_FFFF_FFFF_FFFF
  const LongMax: nat := 0x7FFF_FFFF_FFFF_FFFF
  const IntMax: int := 0x7FFF_FFFF

  // ------------------------------------------------------------ strtoul

  /** `isspace` in the C locale: space, and tab through carriage return. */
  predicate IsSpace(c: char)
  {
    c == ' ' || '\t' <= c <= '\r'
  }

  predicate IsDigit(c: char)
  {
    '0' <= c <= '9'
  }

  predicate AllDigits(s: string)
  {
    forall i | 0 <= i < |s| :: IsDigit(s[i])
  }

  /** The length of the whitespace at the front of `s`. */
  function SpaceRun(s: string): (n: nat)
    ensures n <= |s| && (forall i | 0 <= i < n :: IsSpace(s[i])) && (n < |s| ==> !IsSpace(s[n]))
  {
    if s != [] && IsSpace(s[0]) then 1 + SpaceRun(s[1..]) else 0
  }

  /** The length of the decimal digits at the front of `s`. */
  function DigitRun(s: string): (n: nat)
    ensures n <= |s| && AllDigits(s[..n]) && (n < |s| ==> !IsDigit(s[n]))
  {
    if s != [] && IsDigit(s[0]) then
      var n := 1 + DigitRun(s[1..]);
      assert forall i | 1 <= i < n :: s[..n][i] == s[1..][..n - 1][i - 1];
      n
    else 0
  }

  function DigitValue(c: char): nat
    requires IsDigit(c)
  {
    c as int - '0' as int
  }

  /** The number a string of decimal digits denotes. */
  function DecimalValue(ds: string): nat
    requires AllDigits(ds)
    decreases |ds|
  {
    if ds == [] then 0
    else
      assert AllDigits(ds[..|ds| - 1]) by {
        assert forall i | 0 <= i < |ds| - 1 :: ds[..|ds| - 1][i] == ds[i];
      }
      DecimalValue(ds[..|ds| - 1]) * 10 + DigitValue(ds[|ds| - 1])
  }

  /** What `strtoul` parses: the string after its leading whitespace and an optional sign. */
  function Unsigned(s: string): string
  {
    var rest := s[SpaceRun(s)..];
    if rest != [] && (rest[0] == '+' || rest[0] == '-') then rest[1..] else rest
  }

  predicate Negated(s: string)
  {
    var rest := s[SpaceRun(s)..];
    rest != [] && rest[0] == '-'
  }

  /**
   * The result of `strtoul(s, &end, 10)`: the value, whether `end` moved
   * past the start of `s`, and whether `errno` was set to ERANGE.
   */
  datatype Conversion = Conversion(value: nat, converted: bool, overflow: bool)

  /**
   * strtoul with base 10: a value too large for `unsigned long` gives
   * ULONG_MAX and ERANGE; a minus sign negates the value modulo 2^64.
   */
  function Strtoul(s: string): (r: Conversion)
    ensures r.value <= ULongMax
    ensures r.overflow ==> r.converted && r.value == ULongMax
    ensures !r.converted ==> r == Conversion(0, false, false)
  {
    var body := Unsigned(s);
    var n := DigitRun(body);
    if n == 0 then Conversion(0, false, false)
    else
      var v := DecimalValue(body[..n]);
      if v > ULongMax then Conversion(ULongMax, true, true)
      else Conversion(if Negated(s) && v != 0 then ULongMax + 1 - v else v, true, false)
  }

  // -------------------------------------------------------------- str2int

  /** `(int) val`: the low 32 bits, read as a two's-complement `int`. */
  function ToInt(v: nat): (r: int)
    ensures -IntMax - 1 <= r <= IntMax
    ensures v <= IntMax ==> r == v
  {
    var w := v % 0x1_0000_0000;
    if w <= IntMax then w else w - 0x1_0000_0000
  }

  /**
   * str2int. The out-of-range test compares with LONG_MAX and with 0, but
   * strtoul reports overflow with ULONG_MAX, so neither arm can hold.
   */
  function Str2Int(s: string): int
  {
    var c := Strtoul(s);
    if (c.overflow && c.value == LongMax) || (c.overflow && c.value == 0) then -EINVAL
    else if !c.converted then -EINVAL
    else ToInt(c.value)
  }

  /** str2int with the out-of-range test the error message describes: any ERANGE is an error. */
  function Str2IntChecked(s: string): int
  {
    var c := Strtoul(s);
    if c.overflow || !c.converted then -EINVAL else ToInt(c.value)
  }

  // ----------------------------------------------------- decimal printing

  function DigitChar(d: nat): (c: char)
    requires d < 10
    ensures IsDigit(c) && DigitValue(c) == d
  {
    ('0' as int + d) as char
  }

  /** The decimal digits of `n`, most significant first, with no leading zero. */
  function Decimal(n: nat): (s: string)
    ensures |s| >= 1 && AllDigits(s)
    ensures n >= 10 ==> s[0] != '0'
  {
    if n < 10 then [DigitChar(n)] else Decimal(n / 10) + [DigitChar(n % 10)]
  }

  /** Printing, then reading the digits back, gives the number. */
  lemma {:induction false} DecimalRoundTrip(n: nat)
    ensures DecimalValue(Decimal(n)) == n
  {
    if n >= 10 {
      DecimalRoundTrip(n / 10);
      var d := Decimal(n);
      assert d[..|d| - 1] == Decimal(n / 10);
    }
  }

  /** A string of digits is read to its end. */
  lemma {:induction false} DigitRunAll(s: string)
    requires AllDigits(s)
    ensures DigitRun(s) == |s|
  {
    if s != [] {
      assert AllDigits(s[1..]) by {
        assert forall i | 0 <= i < |s| - 1 :: s[1..][i] == s[i + 1];
      }
      DigitRunAll(s[1..]);
    }
  }

  /** strtoul reads a printed number back, up to the first character that is not a digit. */
  lemma StrtoulDecimal(n: nat)
    ensures var c := Strtoul(Decimal(n));
      && c.converted && c.overflow == (n > ULongMax)
      && c.value == if n > ULongMax then ULongMax else n
  {
    var d := Decimal(n);
    assert SpaceRun(d) == 0;
    assert d[0..] == d;
    assert Unsigned(d) == d && !Negated(d);
    DigitRunAll(d);
    assert d[..|d|] == d;
    DecimalRoundTrip(n);
  }

  /** str2int reads back every number an `int` holds. */
  lemma Str2IntDecimal(n: nat)
    requires n <= IntMax
    ensures Str2Int(Decimal(n)) == n
  {
    StrtoulDecimal(n);
  }

  /** `end` moves past the start exactly when a digit follows the whitespace and the sign. */
  lemma StrtoulConverted(s: string)
    ensures Strtoul(s).converted <==> DigitRun(Unsigned(s)) > 0
  {
  }

  /** No digit after the whitespace and the sign: `endptr == str`, and str2int returns -EINVAL. */
  lemma Str2IntNoDigits(s: string)
    requires DigitRun(Unsigned(s)) == 0
    ensures Str2Int(s) == -EINVAL && Str2IntChecked(s) == -EINVAL
  {
    StrtoulConverted(s);
  }

  /** A string that starts with neither whitespace, a sign nor a digit has no digits to read. */
  lemma NoDigitsAtFront(s: string)
    requires s == [] || (!IsSpace(s[0]) && !IsDigit(s[0]) && s[0] != '+' && s[0] != '-')
    ensures DigitRun(Unsigned(s)) == 0
  {
    assert SpaceRun(s) == 0;
    assert s[0..] == s;
    assert Unsigned(s) == s;
  }

  /** Whitespace and a sign alone are not a number either. */
  lemma Str2IntSignOnly()
    ensures Str2Int(" ") == -EINVAL && Str2Int(" x") == -EINVAL
    ensures Str2Int("+") == -EINVAL && Str2Int("-") == -EINVAL && Str2Int("+x") == -EINVAL
    ensures Str2Int("\t-") == -EINVAL
  {
    assert SpaceRun(" ") == 1 && SpaceRun(" x") == 1 && SpaceRun("\t-") == 1;
    assert SpaceRun("+") == 0 && SpaceRun("-") == 0 && SpaceRun("+x") == 0;
    assert Unsigned(" ") == [] && Unsigned(" x") == "x" && Unsigned("\t-") == [];
    assert Unsigned("+") == [] && Unsigned("-") == [] && Unsigned("+x") == "x";
  }

  /** A number too large for `unsigned long` is not reported: str2int returns `(int) ULONG_MAX`, that is -1. */
  lemma Str2IntOverflow(n: nat)
    requires n > ULongMax
    ensures Str2Int(Decimal(n)) == -1
  {
    StrtoulDecimal(n);
  }

  /** The checked str2int reports it. */
  lemma Str2IntCheckedOverflow(n: nat)
    requires n > ULongMax
    ensures Str2IntChecked(Decimal(n)) == -EINVAL
  {
    StrtoulDecimal(n);
  }

  /** The two differ only where the value overflows, and then both are negative. */
  lemma Str2IntCheckedAgrees(s: string)
    ensures !Strtoul(s).overflow ==> Str2IntChecked(s) == Str2Int(s)
    ensures Str2IntChecked(s) < 0 <==> Str2Int(s) < 0
  {
  }

  // -------------------------------------------------- bstr_to_doubleSize

  /** The element type of the benchmark arrays. */
  datatype DataType = Single | Double

  /** `sizeof(float)` and `sizeof(double)` */
  function ElemSize(t: DataType): nat
  {
    match t
    case Single => 4
    case Double => 8
  }

  /** bstrlib's bmidstr: the `len` characters from `left`, with both clamped to the string. */
  function MidStr(s: string, left: int, len: int): (r: string)
    ensures |r| <= |s|
  {
    var len1 := if left < 0 then len + left else len;
    var left1 := if left < 0 then 0 else left;
    var len2 := if len1 > |s| - left1 then |s| - left1 else len1;
    if len2 <= 0 then [] else s[left1..left1 + len2]
  }

  /** The unit suffix and the number in front of it, as bstr_to_doubleSize cuts them. */
  lemma MidStrSplit(s: string)
    ensures |s| >= 2 ==> MidStr(s, |s| - 2, 2) == s[|s| - 2..] && MidStr(s, 0, |s| - 2) == s[..|s| - 2]
    ensures |s| < 2 ==> MidStr(s, 0, |s| - 2) == []
  {
  }

  predicate KnownUnit(unit: string)
  {
    unit == "kB" || unit == "KB" || unit == "MB" || unit == "GB"
  }

  /** The element count for `n` in `unit`; uint64_t arithmetic, which cannot wrap for an `int` count. */
  function Scale(n: nat, unit: string, t: DataType): nat
  {
    if unit == "kB" || unit == "KB" then n * 1000 / ElemSize(t)
    else if unit == "MB" then n * 1000000 / ElemSize(t)
    else if unit == "GB" then n * 1000000000 / ElemSize(t)
    else if unit == "B" then n / ElemSize(t)
    else 0
  }

  /** bstr_to_doubleSize */
  function DoubleSize(s: string, t: DataType): nat
  {
    var unit := MidStr(s, |s| - 2, 2);
    var sizeStr := MidStr(s, 0, |s| - 2);
    if |sizeStr| == 0 then 0
    else
      var ret := Str2Int(sizeStr);
      if ret < 0 then 0 else Scale(ret, unit, t)
  }

  /** The products of Scale stay far below 2^64 for any count an `int` holds. */
  lemma ScaleFits(n: nat, unit: string, t: DataType)
    requires n <= IntMax
    ensures n * 1000000000 < 0x1_0000_0000_0000_0000 && Scale(n, unit, t) <= n * 1000000000
  {
    assert n * 1000000000 <= IntMax * 1000000000;
  }

  /** A string of two characters or fewer has no number in front of its unit. */
  lemma DoubleSizeShort(s: string, t: DataType)
    requires |s| <= 2
    ensures DoubleSize(s, t) == 0
  {
  }

  /** A number followed by kB, KB, MB or GB is scaled by 10^3, 10^3, 10^6 or 10^9 and divided by the element size. */
  lemma DoubleSizeUnits(n: nat, unit: string, t: DataType)
    requires n <= IntMax && KnownUnit(unit)
    ensures DoubleSize(Decimal(n) + unit, t) ==
      (if unit == "MB" then n * 1000000 else if unit == "GB" then n * 1000000000 else n * 1000) / ElemSize(t)
  {
    var d := Decimal(n);
    var s := d + unit;
    MidStrSplit(s);
    assert s[|s| - 2..] == unit && s[..|s| - 2] == d;
    Str2IntDecimal(n);
  }

  /** Any other two-character suffix gives 0, whatever is in front of it. */
  lemma DoubleSizeUnknownUnit(s: string, t: DataType)
    requires |s| >= 2 && !KnownUnit(s[|s| - 2..])
    ensures DoubleSize(s, t) == 0
  {
    MidStrSplit(s);
  }

  /** A count that str2int rejects or reads as negative gives 0. */
  lemma DoubleSizeRejected(s: string, t: DataType)
    requires |s| > 2 && Str2Int(s[..|s| - 2]) < 0
    ensures DoubleSize(s, t) == 0
  {
    MidStrSplit(s);
  }

  /** Digits followed by "B" end in a digit and "B", which is none of the four units. */
  lemma DigitsThenB(d: string)
    requires |d| >= 1 && AllDigits(d)
    ensures var s := d + "B"; |s| >= 2 && !KnownUnit(s[|s| - 2..]) && s[..|s| - 1] == d
  {
    var s := d + "B";
    var u := s[|s| - 2..];
    assert u[0] == d[|d| - 1] && IsDigit(u[0]);
    assert s[..|s| - 1] == d;
  }

  /**
   * The "B" branch is dead: the unit is always two characters, so a plain
   * byte count such as "64B" gives 0.
   */
  lemma DoubleSizeBytesDead(n: nat, t: DataType)
    ensures DoubleSize(Decimal(n) + "B", t) == 0
  {
    var s := Decimal(n) + "B";
    DigitsThenB(Decimal(n));
    DoubleSizeUnknownUnit(s, t);
  }

  /** For instance, 64 bytes of doubles are 8 elements, but the parser says 0. */
  lemma DoubleSizeBytesExample()
    ensures DoubleSize("64B", Double) == 0
  {
    assert Decimal(64) == "64" by {
      assert Decimal(6) == "6";
    }
    DoubleSizeBytesDead(64, Double);
  }

  /**
   * bstr_to_doubleSize as it evidently means to work: a one-character "B"
   * unit counts bytes, and str2int reports overflow.
   */
  function DoubleSizeFixed(s: string, t: DataType): nat
  {
    if |s| >= 1 && s[|s| - 1] == 'B' && !(|s| >= 2 && KnownUnit(s[|s| - 2..])) then
      var sizeStr := s[..|s| - 1];
      if |sizeStr| == 0 then 0
      else
        var ret := Str2IntChecked(sizeStr);
        if ret < 0 then 0 else ret / ElemSize(t)
    else
      var unit := MidStr(s, |s| - 2, 2);
      var sizeStr := MidStr(s, 0, |s| - 2);
      if |sizeStr| == 0 then 0
      else
        var ret := Str2IntChecked(sizeStr);
        if ret < 0 then 0 else Scale(ret, unit, t)
  }

  /** The corrected parser counts bytes. */
  lemma DoubleSizeFixedBytes(n: nat, t: DataType)
    requires n <= IntMax
    ensures DoubleSizeFixed(Decimal(n) + "B", t) == n / ElemSize(t)
  {
    DigitsThenB(Decimal(n));
    StrtoulDecimal(n);
  }

  /** On every string with one of the four two-character units, the corrected parser agrees with the original. */
  lemma DoubleSizeFixedAgrees(s: string, t: DataType)
    requires |s| >= 2 && KnownUnit(s[|s| - 2..])
    ensures DoubleSizeFixed(s, t) == DoubleSize(s, t)
  {
    MidStrSplit(s);
    Str2IntCheckedAgrees(s[..|s| - 2]);
  }
}
