/** The status word that ends every `READ?` reply, as the drivers cache it
    and pick it apart. Bit positions are the documented ones:
    0 overflow, 1 filter, 2 math, 3 null, 4 limit test enabled,
    5-6 limit test result, 7 overvoltage, 8 unused, 9 zero check,
    10 zero correct. The C bit-field layout is read through these positions. */
module StatusWord {

  /** Returned for the limit-test outcome when no limit test is enabled. */
  const NoLimitTest := 3

  /** The cached `int` as the 32 bits the C bit-fields are carved from
      (two's complement when negative). */
  function Word(raw: int): bv32
  {
    (raw % 0x1_0000_0000) as bv32
  }

  /** A word that fits in 32 bits is cached and re-read unchanged. */
  lemma WordOfBits(x: bv32)
    ensures Word(x as int) == x
  {
    BitsAsIntBound(x);
    SmallRemainder(x as int);
    BitsAsIntRoundTrip(x);
  }

  lemma BitsAsIntBound(x: bv32)
    ensures 0 <= x as int < 0x1_0000_0000
  {
  }

  lemma SmallRemainder(y: int)
    requires 0 <= y < 0x1_0000_0000
    ensures y % 0x1_0000_0000 == y
  {
  }

  lemma BitsAsIntRoundTrip(x: bv32)
    ensures (x as int) as bv32 == x
  {
  }

  /** The field that starts at bit `shift`, `mask` wide. */
  function Field(w: bv32, shift: nat, mask: bv32): nat
    requires shift < 32
  {
    ((w >> shift) & mask) as nat
  }

  /** A one-bit field reads as 0 or 1, and a two-bit field as at most 3. */
  lemma FieldBound(w: bv32, shift: nat, mask: bv32)
    requires shift < 32 && (mask == 1 || mask == 3)
    ensures Field(w, shift, mask) <= mask as nat
  {
    var x := (w >> shift) & mask;
    if mask == 1 {
      assert x == 0 || x == 1;
    } else {
      assert x == 0 || x == 1 || x == 2 || x == 3;
    }
  }

  /** Every flag accessor reports 0 or 1; the limit accessor reports the
      two-bit result or the sentinel, so at most 3. */
  lemma AccessorRanges(w: bv32)
    ensures Overflow(w) <= 1 && FilterEnabled(w) <= 1 && MathEnabled(w) <= 1
    ensures NullEnabled(w) <= 1 && LimitTest(w) <= 1 && Overvoltage(w) <= 1
    ensures ZeroCheckEnabled(w) <= 1 && ZeroCorrectEnabled(w) <= 1
    ensures LimitResult(w) <= 3 && 0 <= LimitsAccessor(w) <= NoLimitTest
  {
    FieldBound(w, 0, 1);
    FieldBound(w, 1, 1);
    FieldBound(w, 2, 1);
    FieldBound(w, 3, 1);
    FieldBound(w, 4, 1);
    FieldBound(w, 5, 3);
    FieldBound(w, 7, 1);
    FieldBound(w, 9, 1);
    FieldBound(w, 10, 1);
  }

  function Overflow(w: bv32): nat { Field(w, 0, 1) }
  function FilterEnabled(w: bv32): nat { Field(w, 1, 1) }
  function MathEnabled(w: bv32): nat { Field(w, 2, 1) }
  function NullEnabled(w: bv32): nat { Field(w, 3, 1) }
  function LimitTest(w: bv32): nat { Field(w, 4, 1) }
  function LimitResult(w: bv32): nat { Field(w, 5, 3) }
  function Overvoltage(w: bv32): nat { Field(w, 7, 1) }
  function ZeroCheckEnabled(w: bv32): nat { Field(w, 9, 1) }
  function ZeroCorrectEnabled(w: bv32): nat { Field(w, 10, 1) }

  /** What the STATUS_LIMITS accessor reports: the result field when a
      limit test is enabled, the sentinel otherwise. */
  function LimitsAccessor(w: bv32): int
  {
    if LimitTest(w) == 1 then LimitResult(w) else NoLimitTest
  }

  /** The fields of a status word as the instrument reports them. */
  datatype Fields = Fields(
    overflow: bool, filter: bool, math: bool, nullEnabled: bool,
    limitTest: bool, limitResult: nat, overvoltage: bool,
    zeroCheck: bool, zeroCorrect: bool)
  {
    predicate Valid() { limitResult <= 3 }
  }

  function B(b: bool): bv32 { if b then 1 else 0 }

  function ResultBits(r: nat): bv32
  {
    if r == 0 then 0 else if r == 1 then 1 else if r == 2 then 2 else 3
  }

  /** The status word an instrument sends for the given fields (bit 8 clear). */
  function Pack(f: Fields): bv32
    requires f.Valid()
  {
    B(f.overflow) | (B(f.filter) << 1) | (B(f.math) << 2) | (B(f.nullEnabled) << 3)
      | (B(f.limitTest) << 4) | (ResultBits(f.limitResult) << 5) | (B(f.overvoltage) << 7)
      | (B(f.zeroCheck) << 9) | (B(f.zeroCorrect) << 10)
  }

  function N(b: bool): nat { if b then 1 else 0 }

  lemma BitsOfPack(f: Fields)
    requires f.Valid()
    ensures var x := Pack(f);
      && (x & 1) == B(f.overflow) && ((x >> 1) & 1) == B(f.filter)
      && ((x >> 2) & 1) == B(f.math) && ((x >> 3) & 1) == B(f.nullEnabled)
      && ((x >> 4) & 1) == B(f.limitTest) && ((x >> 5) & 3) == ResultBits(f.limitResult)
      && ((x >> 7) & 1) == B(f.overvoltage) && ((x >> 9) & 1) == B(f.zeroCheck)
      && ((x >> 10) & 1) == B(f.zeroCorrect)
  {
  }

  lemma FlagValue(b: bool)
    ensures B(b) as nat == N(b)
  {
  }

  lemma ResultValue(r: nat)
    requires r <= 3
    ensures ResultBits(r) as nat == r
  {
  }

  /** Every accessor recovers its own field from a packed word. */
  lemma AccessorsUnpack(f: Fields)
    requires f.Valid()
    ensures var w := Pack(f);
      && Overflow(w) == N(f.overflow)
      && FilterEnabled(w) == N(f.filter)
      && MathEnabled(w) == N(f.math)
      && NullEnabled(w) == N(f.nullEnabled)
      && LimitTest(w) == N(f.limitTest)
      && LimitResult(w) == f.limitResult
      && Overvoltage(w) == N(f.overvoltage)
      && ZeroCheckEnabled(w) == N(f.zeroCheck)
      && ZeroCorrectEnabled(w) == N(f.zeroCorrect)
  {
    BitsOfPack(f);
    FlagValue(f.overflow);
    FlagValue(f.filter);
    FlagValue(f.math);
    FlagValue(f.nullEnabled);
    FlagValue(f.limitTest);
    FlagValue(f.overvoltage);
    FlagValue(f.zeroCheck);
    FlagValue(f.zeroCorrect);
    ResultValue(f.limitResult);
  }

  /** The limit accessor reports the sentinel whenever the test is disabled,
      whatever the result bits hold, and the result field otherwise. */
  lemma LimitsSentinel(f: Fields)
    requires f.Valid()
    ensures !f.limitTest ==> LimitsAccessor(Pack(f)) == NoLimitTest
    ensures f.limitTest ==> LimitsAccessor(Pack(f)) == f.limitResult
  {
    AccessorsUnpack(f);
  }
}
