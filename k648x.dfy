/** The variant-aware driver for the Keithley 6485 and 6487 picoammeters:
    its device types, its command table, tag resolution with device
    gating, and its six typed entry points. */
module K648x {
  import opened Optional
  import opened Strings
  import opened IdnReply
  import opened Protocol
  import opened Session

  datatype Device = Dev6485 | Dev6487

  /** Which instruments a command-table entry is for. */
  datatype Target = AllDevices | Only(device: Device)

  datatype Entry = Entry(tag: string, target: Target, handler: Handler)

  predicate Serves(t: Target, d: Device)
  {
    t == AllDevices || t == Only(d)
  }

  /** The device type named at start-up: "6485" or "6487", nothing else. */
  function DeviceOf(name: string): (d: Option<Device>)
    ensures d == Some(Dev6485) <==> name == "6485"
    ensures d == Some(Dev6487) <==> name == "6487"
  {
    if name == "6485" then Some(Dev6485)
    else if name == "6487" then Some(Dev6487)
    else None
  }

  /** The command table; an entry's index is the `reason` tag resolution
      hands out. */
  const Table: seq<Entry> := [
    Entry("VOID", AllDevices, Gen(Void)),
    Entry("READ", AllDevices, Gen(ReadSensor)),
    Entry("RANGE", AllDevices, Gen(RangeCmd(Range))),
    Entry("RANGE_AUTO_ULIMIT", AllDevices, Gen(RangeCmd(AutoUpperLimit))),
    Entry("RANGE_AUTO_LLIMIT", AllDevices, Gen(RangeCmd(AutoLowerLimit))),
    Entry("RATE", AllDevices, Gen(Rate)),
    Entry("DIGITAL_FILTER_CONTROL", AllDevices, Gen(FilterControl)),
    Entry("VOLT_RANGE", Only(Dev6487), Gen(VoltRange)),
    Entry("RESET", AllDevices, Simple(SimpleCommand(Trigger, "*RST"))),
    Entry("RANGE_AUTO", AllDevices, Simple(SimpleCommand(IntParam, ":RANGE:AUTO"))),
    Entry("ZERO_CHECK", AllDevices, Simple(SimpleCommand(IntParam, "SYST:ZCH"))),
    Entry("ZERO_CORRECT", AllDevices, Simple(SimpleCommand(IntParam, "SYST:ZCOR"))),
    Entry("ZERO_CORRECT_ACQUIRE", AllDevices, Simple(SimpleCommand(Trigger, "SYST:ZCOR:ACQ"))),
    Entry("MEDIAN_FILTER", AllDevices, Simple(SimpleCommand(IntParam, "MED"))),
    Entry("MEDIAN_FILTER_RANK", AllDevices, Simple(SimpleCommand(IntParam, "MED:RANK"))),
    Entry("DIGITAL_FILTER", AllDevices, Simple(SimpleCommand(IntParam, "AVER"))),
    Entry("DIGITAL_FILTER_COUNT", AllDevices, Simple(SimpleCommand(IntParam, "AVER:COUN"))),
    Entry("MODEL", AllDevices, Cache(Model)),
    Entry("SERIAL", AllDevices, Cache(Serial)),
    Entry("DIG_REV", AllDevices, Cache(DigRev)),
    Entry("DISP_REV", AllDevices, Cache(DispRev)),
    Entry("BRD_REV", AllDevices, Cache(BrdRev)),
    Entry("TIMESTAMP", AllDevices, Cache(Timestamp)),
    Entry("STATUS_RAW", AllDevices, Cache(StatusRaw)),
    Entry("STATUS_OVERFLOW", AllDevices, Cache(StatusOverflow)),
    Entry("STATUS_FILTER", AllDevices, Cache(StatusFilter)),
    Entry("STATUS_MATH", AllDevices, Cache(StatusMath)),
    Entry("STATUS_NULL", AllDevices, Cache(StatusNull)),
    Entry("STATUS_LIMITS", AllDevices, Cache(StatusLimits)),
    Entry("STATUS_OVERVOLTAGE", AllDevices, Cache(StatusOvervoltage)),
    Entry("STATUS_ZERO_CHECK", AllDevices, Cache(StatusZeroCheck)),
    Entry("STATUS_ZERO_CORRECT", AllDevices, Cache(StatusZeroCorrect))
  ]

  function Tags(): seq<string>
  {
    seq(|Table|, i requires 0 <= i < |Table| => Table[i].tag)
  }

  /** create: the first entry whose tag equals the requested one up to
      case; an entry for the other device is refused, and every failure
      leaves `reason` at the VOID entry. */
  method Create(devtype: Device, tag: string) returns (status: Status, reason: nat)
    ensures reason < |Table|
    ensures match FirstCaseMatch(Tags(), tag, 0)
      case None => status == Error && reason == 0
      case Some(i) =>
        if Serves(Table[i].target, devtype) then status == Success && reason == i
        else status == Error && reason == 0
  {
    var found := MatchKey(Tags(), tag);
    match found
    case None =>
      return Error, 0;
    case Some(i) =>
      if !Serves(Table[i].target, devtype) {
        return Error, 0;
      }
      return Success, i;
  }

  /** The reads and writes the C code gives a meaning to (see
      Protocol.ReadDefined and Protocol.WriteDefined). */
  predicate Readable(reason: nat, k: Kind)
  {
    reason < |Table| && ReadDefined(Table[reason].handler, k)
  }

  predicate Writable(reason: nat, k: Kind)
  {
    reason < |Table| && WriteDefined(Table[reason].handler, k)
  }

  method WriteFloat64(port: Port, reason: nat, x: real, io: Exchange) returns (status: Status)
    requires Writable(reason, Float64)
    modifies port
    ensures !old(port.init) ==> status == Error && port.Unchanged()
    ensures old(port.init) ==> port.Wrote(WriteRoute(Table[reason].handler, FloatValue(x)), io, status)
  {
    var nbytes;
    status, nbytes := port.WriteEntry(Table[reason].handler, FloatValue(x), io);
  }

  method ReadFloat64(port: Port, reason: nat, io: Exchange) returns (status: Status, out: Output)
    requires Readable(reason, Float64)
    modifies port
    ensures !old(port.init) ==> status == Error && out == Nothing && port.Unchanged()
    ensures old(port.init) ==> port.Read(ReadRoute(Table[reason].handler, Float64), io, status, out)
  {
    status, out := port.ReadEntry(Table[reason].handler, Float64, io);
  }

  method WriteInt32(port: Port, reason: nat, i: int, io: Exchange) returns (status: Status)
    requires Writable(reason, Int32)
    modifies port
    ensures !old(port.init) ==> status == Error && port.Unchanged()
    ensures old(port.init) ==> port.Wrote(WriteRoute(Table[reason].handler, IntValue(i)), io, status)
  {
    var nbytes;
    status, nbytes := port.WriteEntry(Table[reason].handler, IntValue(i), io);
  }

  method ReadInt32(port: Port, reason: nat, io: Exchange) returns (status: Status, out: Output)
    requires Readable(reason, Int32)
    modifies port
    ensures !old(port.init) ==> status == Error && out == Nothing && port.Unchanged()
    ensures old(port.init) ==> port.Read(ReadRoute(Table[reason].handler, Int32), io, status, out)
  {
    status, out := port.ReadEntry(Table[reason].handler, Int32, io);
  }

  method WriteOctet(port: Port, reason: nat, text: string, io: Exchange) returns (status: Status, nbytes: Option<nat>)
    requires Writable(reason, Octet)
    modifies port
    ensures !old(port.init) ==> status == Error && nbytes == None && port.Unchanged()
    ensures old(port.init) ==> port.Wrote(WriteRoute(Table[reason].handler, TextValue(text)), io, status)
    ensures nbytes == if old(port.init) && !Table[reason].handler.Cache? then Some(|text|) else None
  {
    status, nbytes := port.WriteEntry(Table[reason].handler, TextValue(text), io);
  }

  method ReadOctet(port: Port, reason: nat, io: Exchange) returns (status: Status, out: Output)
    requires Readable(reason, Octet)
    modifies port
    ensures !old(port.init) ==> status == Error && out == Nothing && port.Unchanged()
    ensures old(port.init) ==> port.Read(ReadRoute(Table[reason].handler, Octet), io, status, out)
  {
    status, out := port.ReadEntry(Table[reason].handler, Octet, io);
  }

  /** drvAsynKeithley648x from the device-type check on: an unknown type is
      refused before any I/O; otherwise the port is brought up. */
  method Start(port: Port, name: string, vxWorks: bool, wake: Exchange, cls: Exchange, idn: Exchange)
    returns (status: Status, devtype: Option<Device>)
    requires !port.init
    requires ((!vxWorks || Outcome("", wake) == Success) && Outcome("*CLS", cls) == Success &&
      Outcome("*IDN?", idn) == Success) ==> Splittable(Reply(idn))
    modifies port
    ensures devtype == DeviceOf(name)
    ensures devtype.None? ==> status == Error && port.Unchanged()
    ensures devtype.Some? ==> port.Initialised(vxWorks, wake, cls, idn, status)
  {
    devtype := DeviceOf(name);
    if devtype.None? {
      return Error, devtype;
    }
    status := port.Initialise(vxWorks, wake, cls, idn);
  }
}
