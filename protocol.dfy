/** The request/reply vocabulary the two Keithley electrometer drivers speak:
    asyn statuses, the interface kind a request arrives on, the transport
    exchange, the statistics counters, the cached measurement, and the
    pure part of every handler. A write handler decides on a `WritePlan`
    (do nothing, refuse, or send one command); a read handler on a
    `ReadAction` (do nothing, ask one query and decode its reply, take a
    sensor sample, or answer from the cache). The port performs them. */
module Protocol {
  import opened Optional
  import opened Numbers
  import opened Strings
  import opened StatusWord
  import opened IdnReply

  /** asyn completion codes. */
  datatype Status = Success | Timeout | Overflow | Error | Disconnected | Disabled

  /** The asyn interface a request comes through. */
  datatype Kind = Octet | Float64 | Int32

  /** The value a write carries, of the kind of its interface. */
  datatype Value = IntValue(i: int) | FloatValue(x: real) | TextValue(text: string)

  /** What a read hands back: nothing, an Int32, a Float64, or Octet text
      with its end-of-message reason (its length is the text's length). */
  datatype Output = Nothing | IntOut(i: int) | FloatOut(x: real) | TextOut(text: string, eom: int)

  /** Size of every command and reply buffer. */
  const BufferSize := 100

  // ---------------------------------------------------------------------
  // The transport and its bookkeeping

  /** What the octet transport reports for one exchange: its status, the
      number of bytes it wrote, the text it read, and why the read ended. */
  datatype Exchange = Exchange(status: Status, nWritten: nat, received: string, eom: int)

  /** The status writeOnly and writeRead return: a write that sent fewer or
      more bytes than the command holds is an error whatever the transport
      said. */
  function Outcome(cmd: string, io: Exchange): Status
  {
    if io.nWritten != |cmd| then Error else io.status
  }

  /** The reply as it stands in the input buffer: the transport is asked
      for at most BufferSize - 1 characters and the text is terminated
      after them. */
  function Reply(io: Exchange): (r: string)
    ensures |r| < BufferSize && |r| <= |io.received| && r == io.received[..|r|]
    ensures |io.received| < BufferSize ==> r == io.received
    ensures |io.received| >= BufferSize ==> r == io.received[..BufferSize - 1]
  {
    if |io.received| < BufferSize then io.received else io.received[..BufferSize - 1]
  }

  /** The per-port statistics. */
  datatype Stats = Stats(ioErrors: nat, writeReads: nat, writeOnlys: nat)
  {
    function Total(): nat { ioErrors + writeReads + writeOnlys }

    /** No counter is smaller in `later`. */
    predicate Below(later: Stats)
    {
      ioErrors <= later.ioErrors && writeReads <= later.writeReads && writeOnlys <= later.writeOnlys
    }

    /** The counters after one command-only exchange. */
    function AfterWriteOnly(ok: bool): (s: Stats)
      ensures Below(s) && s.Total() == Total() + 1
      ensures s.ioErrors == ioErrors + (if ok then 0 else 1)
      ensures s.writeReads == writeReads
    {
      if ok then this.(writeOnlys := writeOnlys + 1) else this.(ioErrors := ioErrors + 1)
    }

    /** The counters after one query exchange. */
    function AfterWriteRead(ok: bool): (s: Stats)
      ensures Below(s) && s.Total() == Total() + 1
      ensures s.ioErrors == ioErrors + (if ok then 0 else 1)
      ensures s.writeOnlys == writeOnlys
    {
      if ok then this.(writeReads := writeReads + 1) else this.(ioErrors := ioErrors + 1)
    }
  }

  /** The last sensor sample and the end-of-message reason of the last
      query a handler made. */
  datatype Measurement = Measurement(reading: real, timestamp: int, raw: int, eom: int)

  // ---------------------------------------------------------------------
  // What handlers decide

  datatype WritePlan = Ignore | Reject | Send(command: string)

  /** How a query's reply becomes a value. */
  datatype Decoder =
    | AsInt        // `atoi` of the reply
    | RangeCode    // 9 + `atoi` of what follows the first 'E'; no 'E' is an error
    | RangeValue   // `atof` of the reply; 0.0 is an error
    | RateCode     // the NPLC number sorted into slow, medium, fast
    | FilterCode   // "MOV" or "REP"; anything else is an error

  /** The values the cache answers from. */
  datatype CacheId =
    | Timestamp | StatusRaw | StatusOverflow | StatusFilter | StatusMath | StatusNull
    | StatusLimits | StatusOvervoltage | StatusZeroCheck | StatusZeroCorrect
    | Model | Serial | DigRev | DispRev | BrdRev
  {
    /** One of the five identity strings. */
    predicate IsText() { Model? || Serial? || DigRev? || DispRev? || BrdRev? }
  }

  datatype ReadAction =
    | Idle
    | Ask(query: string, decoder: Decoder)
    | Sample(kind: Kind)
    | Cached(kind: Kind, entry: CacheId)

  // ---------------------------------------------------------------------
  // Range: `<stem> 2.0e<code - 9>` out, 9 + exponent back

  datatype RangeParam = Range | AutoUpperLimit | AutoLowerLimit

  function RangeStem(p: RangeParam): string
  {
    match p
    case Range => ":RANGE"
    case AutoUpperLimit => ":RANGE:AUTO:ULIM"
    case AutoLowerLimit => ":RANGE:AUTO:LLIM"
  }

  /** Highest range code: 2 mA full scale, as code 0 is 2 nA. */
  const MaxRangeCode := 7

  /** writeRange: only Int32 requests act, codes outside 0..7 are refused,
      and code c becomes the full-scale value 2.0e(c - 9). */
  function RangeWrite(p: RangeParam, v: Value): WritePlan
  {
    if !v.IntValue? then Ignore
    else if v.i < 0 || v.i > MaxRangeCode then Reject
    else Send(RangeStem(p) + " 2.0e" + IntToString(v.i - 9))
  }

  /** readRange: Octet requests do nothing; Float64 asks for the value,
      Int32 for the code. */
  function RangeRead(p: RangeParam, k: Kind): ReadAction
  {
    if k == Octet then Idle
    else Ask(RangeStem(p) + "?", if k == Float64 then RangeValue else RangeCode)
  }

  // ---------------------------------------------------------------------
  // Rate: integration time in power-line cycles, in three buckets

  /** The NPLC numbers written for slow, medium and fast (`%g` of 6.0, 1.0, 0.1). */
  const RateText: seq<string> := ["6", "1", "0.1"]

  /** writeRate: Int32 only; codes 0..2 are sent, others refused. */
  function RateWrite(v: Value): WritePlan
  {
    if !v.IntValue? then Ignore
    else if v.i < 0 || v.i > 2 then Reject
    else Send(":NPLC " + RateText[v.i])
  }

  function RateRead(k: Kind): ReadAction
  {
    if k != Int32 then Idle else Ask(":NPLC?", RateCode)
  }

  /** readRate's classification of the NPLC number it reads back. */
  function RateBucket(nplc: real): (r: int)
    ensures 0 <= r <= 2
  {
    if nplc > 1.0 then 0 else if nplc > 0.1 then 1 else 2
  }

  // ---------------------------------------------------------------------
  // Digital filter control: moving or repeating average

  function FilterWrite(v: Value): WritePlan
  {
    if !v.IntValue? then Ignore
    else if v.i == 0 then Send("AVER:TCON MOV")
    else if v.i == 1 then Send("AVER:TCON REP")
    else Reject
  }

  function FilterRead(k: Kind): ReadAction
  {
    if k != Int32 then Idle else Ask("AVER:TCON?", FilterCode)
  }

  // ---------------------------------------------------------------------
  // Table-driven simple commands

  /** The types the simple-command tables use: a bare trigger, or a
      command with an Int32 parameter. */
  datatype SimpleKind = Trigger | IntParam

  datatype SimpleCommand = SimpleCommand(kind: SimpleKind, stem: string)

  /** writeSimpleData: a trigger sends its stem whatever the interface;
      a parameter command sends `stem value` for a request of its own kind
      and ignores the others. */
  function SimpleWrite(c: SimpleCommand, v: Value): WritePlan
  {
    if c.kind == Trigger then Send(c.stem)
    else if !v.IntValue? then Ignore
    else Send(c.stem + " " + IntToString(v.i))
  }

  /** readSimpleData: only a request of the command's own kind asks
      `stem?`; a trigger has no kind, so it never reads. */
  function SimpleRead(c: SimpleCommand, k: Kind): ReadAction
  {
    if c.kind == IntParam && k == Int32 then Ask(c.stem + "?", AsInt) else Idle
  }

  // ---------------------------------------------------------------------
  // Decoding replies

  /** readSimpleData's Int32 decoding: `atoi` of the reply. */
  function IntOf(reply: string): Option<Output>
  {
    Some(IntOut(AtoI(reply)))
  }

  /** readRange's Int32 decoding: 9 plus the integer after the first 'E'. */
  function RangeCodeOf(reply: string): Option<Output>
  {
    FindFromSpec(reply, 'E', 0);
    match FindFrom(reply, 'E', 0)
    case Missing => None
    case At(e) => Some(IntOut(9 + AtoI(reply[e + 1..])))
  }

  /** readRange's Float64 decoding: the number, with zero refused. */
  function RangeValueOf(reply: string): Option<Output>
  {
    var x := AtoF(reply);
    if x == 0.0 then None else Some(FloatOut(x))
  }

  /** readRate's decoding: the bucket of the NPLC number. */
  function RateCodeOf(reply: string): Option<Output>
  {
    Some(IntOut(RateBucket(AtoF(reply))))
  }

  /** readCommon's filter-control decoding: MOV is 0, REP is 1. */
  function FilterCodeOf(reply: string): Option<Output>
  {
    if reply == "MOV" then Some(IntOut(0))
    else if reply == "REP" then Some(IntOut(1))
    else None
  }

  function Decode(d: Decoder, reply: string): Option<Output>
  {
    match d
    case AsInt => IntOf(reply)
    case RangeCode => RangeCodeOf(reply)
    case RangeValue => RangeValueOf(reply)
    case RateCode => RateCodeOf(reply)
    case FilterCode => FilterCodeOf(reply)
  }

  // ---------------------------------------------------------------------
  // Sensor samples: `READ?` answers `reading,timestamp,status`

  /** A parsed sample: the reading, the timestamp and status word as the
      `(int)` casts leave them, and the reading's own text. */
  datatype Reading = Reading(reading: real, timestamp: int, raw: int, text: string)

  /** The sample in the first three tokens of a reply. */
  function ParseReading(tokens: seq<string>): Reading
    requires |tokens| >= 3
  {
    Reading(AtoF(tokens[0]), TruncToInt(AtoF(tokens[1])), TruncToInt(AtoF(tokens[2])), tokens[0])
  }

  /** What a sensor read hands back, by interface: the reading's text
      (not cut) with the transport's eom, the reading, or nothing. */
  function SampleOutput(k: Kind, r: Reading, eom: int): Output
  {
    match k
    case Octet => TextOut(r.text, eom)
    case Float64 => FloatOut(r.reading)
    case Int32 => Nothing
  }

  // ---------------------------------------------------------------------
  // Cache reads

  function IdentityText(c: CacheId, id: Identity): string
    requires c.IsText()
  {
    match c
    case Model => id.model
    case Serial => id.serial
    case DigRev => id.digRev
    case DispRev => id.dispRev
    case BrdRev => id.brdRev
  }

  /** readCache. Octet reads of an identity string give it cut to 39
      characters with eom 0; Float64 reads give nothing; Int32 reads give
      the timestamp, the raw status word or one of its fields (nothing for
      the identity strings). */
  function CacheRead(k: Kind, c: CacheId, id: Identity, d: Measurement): Output
    requires k == Octet ==> c.IsText()
  {
    var w := Word(d.raw);
    match k
    case Octet => TextOut(Clip(IdentityText(c, id)), 0)
    case Float64 => Nothing
    case Int32 =>
      match c
      case Timestamp => IntOut(d.timestamp)
      case StatusRaw => IntOut(d.raw)
      case StatusOverflow => IntOut(StatusWord.Overflow(w))
      case StatusFilter => IntOut(FilterEnabled(w))
      case StatusMath => IntOut(MathEnabled(w))
      case StatusNull => IntOut(NullEnabled(w))
      case StatusLimits => IntOut(LimitsAccessor(w))
      case StatusOvervoltage => IntOut(Overvoltage(w))
      case StatusZeroCheck => IntOut(ZeroCheckEnabled(w))
      case StatusZeroCorrect => IntOut(ZeroCorrectEnabled(w))
      case _ => Nothing
  }

  // ---------------------------------------------------------------------
  // Routing a command-table entry to its handler

  /** The general commands, each with its own pair of handlers. */
  datatype GenCommand = Void | ReadSensor | RangeCmd(param: RangeParam) | Rate | FilterControl | VoltRange

  /** A command-table entry's class and the handler it selects. */
  datatype Handler = Gen(gen: GenCommand) | Simple(simple: SimpleCommand) | Cache(entry: CacheId)

  /** The writes whose C handler has a defined meaning: VOLT_RANGE has no
      case in the shared write handler, so an Int32 write sends an
      uninitialised command buffer. */
  predicate WriteDefined(h: Handler, k: Kind)
  {
    !(h == Gen(VoltRange) && k == Int32)
  }

  /** The reads whose C handler has a defined meaning: an Int32 VOLT_RANGE
      read leaves the value uninitialised, and an Octet cache read of a
      non-identity entry takes the length of a null string. */
  predicate ReadDefined(h: Handler, k: Kind)
  {
    !(h == Gen(VoltRange) && k == Int32) && !(h.Cache? && k == Octet && !h.entry.IsText())
  }

  function KindOf(v: Value): Kind
  {
    match v
    case IntValue(_) => Int32
    case FloatValue(_) => Float64
    case TextValue(_) => Octet
  }

  /** The write plan of an entry: the handler's plan for general and
      simple commands, nothing at all for cache entries. */
  function WriteRoute(h: Handler, v: Value): WritePlan
    requires WriteDefined(h, KindOf(v))
  {
    match h
    case Gen(g) =>
      (match g
       case Void => Ignore
       case ReadSensor => Ignore
       case RangeCmd(p) => RangeWrite(p, v)
       case Rate => RateWrite(v)
       case FilterControl => FilterWrite(v)
       case VoltRange => Ignore)
    case Simple(c) => SimpleWrite(c, v)
    case Cache(_) => Ignore
  }

  /** The read action of an entry. */
  function ReadRoute(h: Handler, k: Kind): ReadAction
    requires ReadDefined(h, k)
  {
    match h
    case Gen(g) =>
      (match g
       case Void => Idle
       case ReadSensor => Sample(k)
       case RangeCmd(p) => RangeRead(p, k)
       case Rate => RateRead(k)
       case FilterControl => FilterRead(k)
       case VoltRange => Idle)
    case Simple(c) => SimpleRead(c, k)
    case Cache(c) => Cached(k, c)
  }
}
