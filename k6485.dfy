/** The older driver for the Keithley 6485 alone: the same handlers as the
    variant-aware one, a smaller command table without device gating, and
    a rate read whose middle test looks at the wrong variable. */
module K6485 {
  import opened Optional
  import opened Numbers
  import opened Strings
  import opened Protocol
  import opened Session

  datatype Entry = Entry(tag: string, handler: Handler)

  /** The command table; an entry's index is the `reason` tag resolution
      hands out. */
  const Table: seq<Entry> := [
    Entry("VOID", Gen(Void)),
    Entry("READ", Gen(ReadSensor)),
    Entry("RANGE", Gen(RangeCmd(Range))),
    Entry("RANGE_AUTO_ULIMIT", Gen(RangeCmd(AutoUpperLimit))),
    Entry("RANGE_AUTO_LLIMIT", Gen(RangeCmd(AutoLowerLimit))),
    Entry("RATE", Gen(Rate)),
    Entry("RANGE_AUTO", Simple(SimpleCommand(IntParam, ":RANGE:AUTO"))),
    Entry("ZERO_CHECK", Simple(SimpleCommand(IntParam, "SYST:ZCH"))),
    Entry("ZERO_CORRECT", Simple(SimpleCommand(IntParam, "SYST:ZCOR"))),
    Entry("ZERO_CORRECT_ACQUIRE", Simple(SimpleCommand(Trigger, "SYST:ZCOR:ACQ"))),
    Entry("MODEL", Cache(Model)),
    Entry("SERIAL", Cache(Serial)),
    Entry("DIG_REV", Cache(DigRev)),
    Entry("DISP_REV", Cache(DispRev)),
    Entry("BRD_REV", Cache(BrdRev)),
    Entry("TIMESTAMP", Cache(Timestamp)),
    Entry("STATUS_RAW", Cache(StatusRaw)),
    Entry("STATUS_OVERFLOW", Cache(StatusOverflow)),
    Entry("STATUS_FILTER", Cache(StatusFilter)),
    Entry("STATUS_MATH", Cache(StatusMath)),
    Entry("STATUS_NULL", Cache(StatusNull)),
    Entry("STATUS_LIMITS", Cache(StatusLimits)),
    Entry("STATUS_OVERVOLTAGE", Cache(StatusOvervoltage)),
    Entry("STATUS_ZERO_CHECK", Cache(StatusZeroCheck)),
    Entry("STATUS_ZERO_CORRECT", Cache(StatusZeroCorrect))
  ]

  function Tags(): seq<string>
  {
    seq(|Table|, i requires 0 <= i < |Table| => Table[i].tag)
  }

  /** create: the first entry whose tag equals the requested one up to
      case; an unknown tag leaves `reason` at the VOID entry. */
  method Create(tag: string) returns (status: Status, reason: nat)
    ensures reason < |Table|
    ensures match FirstCaseMatch(Tags(), tag, 0)
      case None => status == Error && reason == 0
      case Some(i) => status == Success && reason == i
  {
    var found := MatchKey(Tags(), tag);
    match found
    case None =>
      return Error, 0;
    case Some(i) =>
      return Success, i;
  }

  /** The reads and writes the C code gives a meaning to (see
      Protocol.ReadDefined and Protocol.WriteDefined). */
  predicate Readable(reason: nat, k: Kind)
  {
    reason < |Table| && ReadDefined(Table[reason].handler, k)
  }

  predicate Writable(reason: nat, k: Kind)
  {
    reason < |Table| && WriteDefined(Table[reason].handler, k)
  }

  method WriteFloat64(port: Port, reason: nat, x: real, io: Exchange) returns (status: Status)
    requires Writable(reason, Float64)
    modifies port
    ensures !old(port.init) ==> status == Error && port.Unchanged()
    ensures old(port.init) ==> port.Wrote(WriteRoute(Table[reason].handler, FloatValue(x)), io, status)
  {
    var nbytes;
    status, nbytes := port.WriteEntry(Table[reason].handler, FloatValue(x), io);
  }

  method ReadFloat64(port: Port, reason: nat, io: Exchange) returns (status: Status, out: Output)
    requires Readable(reason, Float64)
    modifies port
    ensures !old(port.init) ==> status == Error && out == Nothing && port.Unchanged()
    ensures old(port.init) ==> port.Read(ReadRoute(Table[reason].handler, Float64), io, status, out)
  {
    status, out := port.ReadEntry(Table[reason].handler, Float64, io);
  }

  method WriteInt32(port: Port, reason: nat, i: int, io: Exchange) returns (status: Status)
    requires Writable(reason, Int32)
    modifies port
    ensures !old(port.init) ==> status == Error && port.Unchanged()
    ensures old(port.init) ==> port.Wrote(WriteRoute(Table[reason].handler, IntValue(i)), io, status)
  {
    var nbytes;
    status, nbytes := port.WriteEntry(Table[reason].handler, IntValue(i), io);
  }

  method ReadInt32(port: Port, reason: nat, io: Exchange) returns (status: Status, out: Output)
    requires Readable(reason, Int32)
    modifies port
    ensures !old(port.init) ==> status == Error && out == Nothing && port.Unchanged()
    ensures old(port.init) ==> port.Read(ReadRoute(Table[reason].handler, Int32), io, status, out)
  {
    status, out := port.ReadEntry(Table[reason].handler, Int32, io);
  }

  method WriteOctet(port: Port, reason: nat, text: string, io: Exchange) returns (status: Status, nbytes: Option<nat>)
    requires Writable(reason, Octet)
    modifies port
    ensures !old(port.init) ==> status == Error && nbytes == None && port.Unchanged()
    ensures old(port.init) ==> port.Wrote(WriteRoute(Table[reason].handler, TextValue(text)), io, status)
    ensures nbytes == if old(port.init) && !Table[reason].handler.Cache? then Some(|text|) else None
  {
    status, nbytes := port.WriteEntry(Table[reason].handler, TextValue(text), io);
  }

  method ReadOctet(port: Port, reason: nat, io: Exchange) returns (status: Status, out: Output)
    requires Readable(reason, Octet)
    modifies port
    ensures !old(port.init) ==> status == Error && out == Nothing && port.Unchanged()
    ensures old(port.init) ==> port.Read(ReadRoute(Table[reason].handler, Octet), io, status, out)
  {
    status, out := port.ReadEntry(Table[reason].handler, Octet, io);
  }

  // ---------------------------------------------------------------------
  // The rate read as this driver writes it

  /** readRate's classification as written: the middle test compares the
      still-uninitialised code variable, whose leftover value is `stale`,
      instead of the NPLC number. */
  function RateBucketAsWritten(nplc: real, stale: int): int
  {
    if nplc > 1.0 then 0
    else if stale as real > 0.1 then 1
    else 2
  }

  /** Whatever the leftover value, the medium and fast rate codes, sent as
      NPLC 1 and 0.1, read back as the same code, so one of them reads back
      wrong; the classification of the newer driver tells them apart. */
  lemma MediumFastMerged(stale: int)
    ensures RateBucketAsWritten(AtoF(RateText[1]), stale) == RateBucketAsWritten(AtoF(RateText[2]), stale)
    ensures RateBucket(AtoF(RateText[1])) == 1 && RateBucket(AtoF(RateText[2])) == 2
  {
    RateConstants();
    assert RateText[1] == "1" && RateText[2] == "0.1";
  }

  /** With the leftover value 0, code 1 (NPLC 1) reads back as 2. */
  lemma MediumReadsFast()
    ensures RateBucketAsWritten(AtoF(RateText[1]), 0) == 2
  {
    RateConstants();
  }
}
