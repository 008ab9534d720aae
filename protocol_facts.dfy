/** What the handlers' encodings promise: each write's command, read back
    through the matching read's decoder, gives the written code again;
    the cache reports the fields of the status word the instrument packed;
    and a three-token `READ?` reply parses into its parts. */
module ProtocolFacts {
  import opened Optional
  import opened Numbers
  import opened Strings
  import opened StatusWord
  import opened IdnReply
  import opened Protocol

  // ---------------------------------------------------------------------
  // Range

  /** Code c is sent as `2.0e(c-9)`; a reply whose first 'E' is followed
      by the decimal c - 9 (and then anything but a digit) is read back as
      c, whatever mantissa precedes it. */
  lemma RangeRoundTrip(p: RangeParam, c: int, mantissa: string, rest: string)
    requires 0 <= c <= MaxRangeCode
    requires Lacks(mantissa, 'E')
    requires rest == [] || !IsDigit(rest[0])
    ensures RangeWrite(p, IntValue(c)) == Send(RangeStem(p) + " 2.0e" + IntToString(c - 9))
    ensures RangeRead(p, Int32) == Ask(RangeStem(p) + "?", RangeCode)
    ensures RangeCodeOf(mantissa + "E" + IntToString(c - 9) + rest) == Some(IntOut(c))
  {
    RangeCodeAfterE(mantissa, IntToString(c - 9), rest);
    AtoIOfIntToString(c - 9, rest);
  }

  /** Whatever the text after the first 'E', the Int32 range decoder reads
      it with `atoi`. */
  lemma RangeCodeAfterE(mantissa: string, x: string, rest: string)
    requires Lacks(mantissa, 'E')
    ensures RangeCodeOf(mantissa + "E" + x + rest) == Some(IntOut(9 + AtoI(x + rest)))
  {
    var s := mantissa + "E" + x + rest;
    forall k | 0 <= k < |mantissa| ensures s[k] != 'E' { assert s[k] == mantissa[k]; }
    FindFromAt(s, 'E', 0, |mantissa|);
    RangeCodeAt(s, |mantissa|);
    assert s[|mantissa| + 1..] == x + rest;
  }

  /** Once the first 'E' is known, the Int32 range decoder reads after it. */
  lemma RangeCodeAt(reply: string, i: nat)
    requires i < |reply| && FindFrom(reply, 'E', 0) == At(i)
    ensures RangeCodeOf(reply) == Some(IntOut(9 + AtoI(reply[i + 1..])))
  {
  }

  /** The Float64 range read of the number a range write sends is the
      full-scale current, 2 shifted by c-9 decimal places (2 x 10^(c-9),
      Numbers.ScaleByTimes), never the 0.0 that is refused. */
  lemma RangeValueOfWritten(p: RangeParam, c: int)
    requires 0 <= c <= MaxRangeCode
    ensures RangeRead(p, Float64) == Ask(RangeStem(p) + "?", RangeValue)
    ensures RangeValueOf("2.0e" + IntToString(c - 9)) == Some(FloatOut(ScaleBy(2.0, c - 9)))
  {
    RangeValueOfExponent(c - 9);
  }

  lemma RangeValueOfExponent(e: int)
    ensures RangeValueOf("2.0e" + IntToString(e)) == Some(FloatOut(ScaleBy(2.0, e)))
  {
    AtoFOfTwoShifted(e);
  }

  /** The Int32 range decoder fails exactly on replies without an 'E'. */
  lemma RangeCodeFails(reply: string)
    ensures RangeCodeOf(reply).None? <==> Lacks(reply, 'E')
  {
    FindFromSpec(reply, 'E', 0);
  }

  /** Otherwise it yields 9 plus the integer after the first 'E'. */
  lemma RangeCodeValue(reply: string, i: nat)
    requires i < |reply| && reply[i] == 'E' && Lacks(reply[..i], 'E')
    ensures RangeCodeOf(reply) == Some(IntOut(9 + AtoI(reply[i + 1..])))
  {
    forall k | 0 <= k < i ensures reply[k] != 'E' { assert reply[..i][k] == reply[k]; }
    FindFromAt(reply, 'E', 0, i);
    RangeCodeAt(reply, i);
  }

  /** The range handlers' other requests: a write of another kind does
      nothing, a code outside 0..7 is refused before any I/O, an Octet read
      does nothing, and a Float64 read refuses only a zero value. */
  lemma RangeRequests(p: RangeParam, v: Value, reply: string)
    ensures !v.IntValue? ==> RangeWrite(p, v) == Ignore
    ensures v.IntValue? && !(0 <= v.i <= MaxRangeCode) ==> RangeWrite(p, v) == Reject
    ensures RangeRead(p, Octet) == Idle
    ensures RangeValueOf(reply) == if AtoF(reply) == 0.0 then None else Some(FloatOut(AtoF(reply)))
  {
  }

  // ---------------------------------------------------------------------
  // Rate

  /** Each rate code is sent as its NPLC number, and that number is sorted
      back into the same code by the rate read. */
  lemma RateRoundTrip(r: int)
    requires 0 <= r <= 2
    ensures RateWrite(IntValue(r)) == Send(":NPLC " + RateText[r])
    ensures RateRead(Int32) == Ask(":NPLC?", RateCode)
    ensures RateCodeOf(RateText[r]) == Some(IntOut(r))
  {
    RateConstants();
    if r == 0 {
      assert RateText[r] == "6";
    } else if r == 1 {
      assert RateText[r] == "1";
    } else {
      assert RateText[r] == "0.1";
    }
  }

  /** Only Int32 requests reach the instrument, and a code outside 0..2 is
      refused before any I/O. */
  lemma RateRequests(v: Value, k: Kind)
    ensures !v.IntValue? ==> RateWrite(v) == Ignore
    ensures v.IntValue? && !(0 <= v.i <= 2) ==> RateWrite(v) == Reject
    ensures k != Int32 ==> RateRead(k) == Idle
  {
  }

  /** The buckets are ordered: a longer integration time never reads as a
      faster rate. */
  lemma RateBucketMonotone(a: real, b: real)
    requires a <= b
    ensures RateBucket(b) <= RateBucket(a)
  {
  }

  // ---------------------------------------------------------------------
  // Digital filter control

  const FilterWords: seq<string> := ["MOV", "REP"]

  /** Mode 0 is sent as MOV and mode 1 as REP, each word reads back as its
      mode, other modes are refused, and every other reply is an error. */
  lemma FilterRoundTrip(m: int, reply: string)
    ensures 0 <= m <= 1 ==>
      FilterWrite(IntValue(m)) == Send("AVER:TCON " + FilterWords[m]) &&
      FilterCodeOf(FilterWords[m]) == Some(IntOut(m))
    ensures !(0 <= m <= 1) ==> FilterWrite(IntValue(m)) == Reject
    ensures FilterCodeOf(reply).Some? <==> reply in FilterWords
  {
  }

  /** Filter-control requests of other kinds do nothing. */
  lemma FilterRequests(v: Value, k: Kind)
    ensures !v.IntValue? ==> FilterWrite(v) == Ignore
    ensures k != Int32 ==> FilterRead(k) == Idle
  {
  }

  // ---------------------------------------------------------------------
  // Simple commands

  /** An Int32 simple command sends `stem value`, queries `stem?`, and a
      reply holding the value as `%d` text reads back as the value. */
  lemma SimpleRoundTrip(c: SimpleCommand, i: int)
    requires c.kind == IntParam
    ensures SimpleWrite(c, IntValue(i)) == Send(c.stem + " " + IntToString(i))
    ensures SimpleRead(c, Int32) == Ask(c.stem + "?", AsInt)
    ensures IntOf(IntToString(i)) == Some(IntOut(i))
  {
    assert IntToString(i) + [] == IntToString(i);
    AtoIOfIntToString(i, []);
  }

  /** Triggers send their bare stem on every interface and never read;
      parameter commands ignore requests of other kinds. */
  lemma SimpleKinds(c: SimpleCommand, v: Value, k: Kind)
    ensures c.kind == Trigger ==> SimpleWrite(c, v) == Send(c.stem) && SimpleRead(c, k) == Idle
    ensures c.kind == IntParam && !v.IntValue? ==> SimpleWrite(c, v) == Ignore
    ensures c.kind == IntParam && k != Int32 ==> SimpleRead(c, k) == Idle
  {
  }

  // ---------------------------------------------------------------------
  // Cache

  /** A cached raw word that the instrument packed from `f` is read back
      field by field, and the limit accessor gives the sentinel exactly
      when no limit test ran. */
  lemma CacheOfPackedStatus(f: Fields, id: Identity, d: Measurement)
    requires f.Valid() && d.raw == Pack(f) as int
    ensures CacheRead(Int32, StatusRaw, id, d) == IntOut(Pack(f) as int)
    ensures CacheRead(Int32, StatusOverflow, id, d) == IntOut(N(f.overflow))
    ensures CacheRead(Int32, StatusFilter, id, d) == IntOut(N(f.filter))
    ensures CacheRead(Int32, StatusMath, id, d) == IntOut(N(f.math))
    ensures CacheRead(Int32, StatusNull, id, d) == IntOut(N(f.nullEnabled))
    ensures CacheRead(Int32, StatusOvervoltage, id, d) == IntOut(N(f.overvoltage))
    ensures CacheRead(Int32, StatusZeroCheck, id, d) == IntOut(N(f.zeroCheck))
    ensures CacheRead(Int32, StatusZeroCorrect, id, d) == IntOut(N(f.zeroCorrect))
    ensures CacheRead(Int32, StatusLimits, id, d) ==
      IntOut(if f.limitTest then f.limitResult else NoLimitTest)
  {
    WordOfBits(Pack(f));
    CacheOfWord(Pack(f), id, d);
    AccessorsUnpack(f);
    LimitsSentinel(f);
  }

  /** The status reads of the cache apply the accessors to the cached word. */
  lemma CacheOfWord(w: bv32, id: Identity, d: Measurement)
    requires Word(d.raw) == w
    ensures CacheRead(Int32, StatusOverflow, id, d) == IntOut(StatusWord.Overflow(w))
    ensures CacheRead(Int32, StatusFilter, id, d) == IntOut(FilterEnabled(w))
    ensures CacheRead(Int32, StatusMath, id, d) == IntOut(MathEnabled(w))
    ensures CacheRead(Int32, StatusNull, id, d) == IntOut(NullEnabled(w))
    ensures CacheRead(Int32, StatusOvervoltage, id, d) == IntOut(Overvoltage(w))
    ensures CacheRead(Int32, StatusZeroCheck, id, d) == IntOut(ZeroCheckEnabled(w))
    ensures CacheRead(Int32, StatusZeroCorrect, id, d) == IntOut(ZeroCorrectEnabled(w))
    ensures CacheRead(Int32, StatusLimits, id, d) == IntOut(LimitsAccessor(w))
  {
  }

  /** Whatever the cached word holds, each flag reads as 0 or 1 and the
      limit accessor as 0..3. */
  lemma CacheFlagsAreBits(c: CacheId, id: Identity, d: Measurement)
    requires !c.IsText() && c != Timestamp && c != StatusRaw
    ensures CacheRead(Int32, c, id, d).IntOut?
    ensures c != StatusLimits ==> CacheRead(Int32, c, id, d).i in {0, 1}
    ensures c == StatusLimits ==> 0 <= CacheRead(Int32, c, id, d).i <= NoLimitTest
  {
    CacheOfWord(Word(d.raw), id, d);
    AccessorRanges(Word(d.raw));
  }

  /** Octet cache reads hand back the identity string whole when it has
      at most 39 characters and its first 39 otherwise, with eom 0;
      Float64 cache reads hand back nothing. */
  lemma CacheText(c: CacheId, id: Identity, d: Measurement)
    requires c.IsText()
    ensures var out := CacheRead(Octet, c, id, d);
      out.TextOut? && out.eom == 0 && |out.text| <= MaxText &&
      out.text == IdentityText(c, id)[..|out.text|] &&
      (|IdentityText(c, id)| <= MaxText ==> out.text == IdentityText(c, id)) &&
      (|IdentityText(c, id)| > MaxText ==> |out.text| == MaxText)
    ensures CacheRead(Float64, c, id, d) == Nothing
    ensures CacheRead(Int32, c, id, d) == Nothing
  {
  }

  // ---------------------------------------------------------------------
  // Routing

  /** Cache entries are read-only: every write to one succeeds without
      I/O, and every read is answered from the port's own state. */
  lemma CacheEntriesReadOnly(c: CacheId, v: Value, k: Kind)
    requires k == Octet ==> c.IsText()
    ensures WriteRoute(Cache(c), v) == Ignore
    ensures ReadRoute(Cache(c), k) == Cached(k, c)
  {
  }

  /** The VOID entry, and writes to the READ entry, do nothing. */
  lemma VoidEntries(v: Value, k: Kind)
    ensures WriteRoute(Gen(Void), v) == Ignore && ReadRoute(Gen(Void), k) == Idle
    ensures WriteRoute(Gen(ReadSensor), v) == Ignore && ReadRoute(Gen(ReadSensor), k) == Sample(k)
  {
  }

  // ---------------------------------------------------------------------
  // Sensor replies

  lemma TruncOfNat(n: nat)
    ensures TruncToInt(n as real) == n
  {
  }

  /** A `READ?` reply `reading,timestamp,status` parses into the reading's
      value, the timestamp and the status word, each read with `atof` and
      the last two cut to integers, and the reading's text. */
  lemma ReadingOfTokens(a: string, b: string, c: string)
    requires a != [] && Lacks(a, ',') && b != [] && Lacks(b, ',') && c != [] && Lacks(c, ',')
    ensures var ts := Tokens(a + "," + b + "," + c, 0);
      |ts| == 3 && ParseReading(ts) == Reading(AtoF(a), TruncToInt(AtoF(b)), TruncToInt(AtoF(c)), a)
  {
    TokensOfTriple(a, b, c);
  }

  /** With plain-integer timestamp and status tokens, the reply gives back
      those integers. */
  lemma ReadingOfReply(a: string, t: nat, raw: nat)
    requires a != [] && Lacks(a, ',')
    ensures var ts := Tokens(a + "," + NatToString(t) + "," + NatToString(raw), 0);
      |ts| == 3 && ParseReading(ts) == Reading(AtoF(a), t, raw, a)
  {
    var b, c := NatToString(t), NatToString(raw);
    assert Lacks(b, ',') && Lacks(c, ',') by {
      assert forall k | 0 <= k < |b| :: IsDigit(b[k]);
      assert forall k | 0 <= k < |c| :: IsDigit(c[k]);
    }
    ReadingOfTokens(a, b, c);
    AtoFOfNatToString(t);
    AtoFOfNatToString(raw);
    TruncOfNat(t);
    TruncOfNat(raw);
  }

  /** A reply with only two tokens: the guard the drivers evidently meant
      stops the token loop here. */
  lemma TwoTokenReply()
    ensures Tokens("1.0E-9,12", 0) == ["1.0E-9", "12"]
  {
    var s := "1.0E-9,12";
    assert s[0..6] == "1.0E-9" && s[6] == ',' && s[7..] == "12";
    TokensOfPair(s, "1.0E-9", "12", 6);
  }
}
