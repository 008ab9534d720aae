/** One driver port: the record both drivers allocate per instrument, with
    its initialisation flag, the identity strings, the statistics counters
    and the last measurement, and the operations that update it in place.
    The octet transport is an oracle: each exchange is handed in as the
    `Exchange` it produces. `sent` logs, as ghost state, every command
    written to the transport, so "no I/O" reads as `sent` unchanged. */
module Session {
  import opened Optional
  import opened Numbers
  import opened Strings
  import opened StatusWord
  import opened IdnReply
  import opened Protocol

  /** Everything a port holds besides the transport log. */
  datatype Snapshot = Snapshot(init: bool, identity: Identity, stats: Stats, data: Measurement)

  /** The identity of a port that has not been initialised: the zeroed
      model buffer reads as empty text. */
  const NoIdentity := Identity("", "", "", "", "")

  class Port {
    var init: bool
    var identity: Identity
    var stats: Stats
    var data: Measurement
    ghost var sent: seq<string>

    function State(): Snapshot
      reads this
    {
      Snapshot(init, identity, stats, data)
    }

    /** A zero-filled port record. */
    constructor ()
      ensures !init && identity == NoIdentity && stats == Stats(0, 0, 0)
      ensures data == Measurement(0.0, 0, 0, 0) && sent == []
    {
      init := false;
      identity := NoIdentity;
      stats := Stats(0, 0, 0);
      data := Measurement(0.0, 0, 0, 0);
      sent := [];
    }

    // -------------------------------------------------------------------
    // Transport

    /** writeOnly: one command, exactly one counter bumped. */
    method WriteOnly(cmd: string, io: Exchange) returns (status: Status)
      modifies this
      ensures status == Outcome(cmd, io)
      ensures sent == old(sent) + [cmd]
      ensures stats == old(stats).AfterWriteOnly(status == Success)
      ensures init == old(init) && identity == old(identity) && data == old(data)
    {
      sent := sent + [cmd];
      status := io.status;
      if io.nWritten != |cmd| {
        status := Error;
      }
      if status != Success {
        stats := stats.(ioErrors := stats.ioErrors + 1);
      } else {
        stats := stats.(writeOnlys := stats.writeOnlys + 1);
      }
    }

    /** writeRead: one query, exactly one counter bumped; on success the
        reply is the text read, terminated after it. `keepEom` says whether
        the end-of-message reason lands in the port's record (the handlers)
        or in a local (initialisation). */
    method WriteRead(cmd: string, io: Exchange, keepEom: bool) returns (status: Status, reply: string)
      modifies this
      ensures status == Outcome(cmd, io)
      ensures status == Success ==> reply == Reply(io)
      ensures sent == old(sent) + [cmd]
      ensures stats == old(stats).AfterWriteRead(status == Success)
      ensures data == if keepEom then old(data).(eom := io.eom) else old(data)
      ensures init == old(init) && identity == old(identity)
    {
      sent := sent + [cmd];
      if keepEom {
        data := data.(eom := io.eom);
      }
      status := io.status;
      if io.nWritten != |cmd| {
        status := Error;
      }
      reply := [];
      if status != Success {
        stats := stats.(ioErrors := stats.ioErrors + 1);
      } else {
        reply := Reply(io);
        stats := stats.(writeReads := stats.writeReads + 1);
      }
    }

    // -------------------------------------------------------------------
    // Handlers

    /** What `Initialise` does to the port, given what each exchange did. */
    twostate predicate Initialised(vxWorks: bool, wake: Exchange, cls: Exchange, idn: Exchange, status: Status)
      reads this
    {
      var woke := !vxWorks || Outcome("", wake) == Success;
      var cleared := woke && Outcome("*CLS", cls) == Success;
      var identified := cleared && Outcome("*IDN?", idn) == Success;
      (status == Success <==> identified) &&
      (status != Success ==> status == Error && !init && identity == old(identity) && data == old(data)) &&
      (status == Success ==>
        init && Splittable(Reply(idn)) && identity == Split(Reply(idn)) && data == old(data).(reading := 0.0, timestamp := 0, raw := 0)) &&
      sent == old(sent) + (if vxWorks then [""] else []) + (if woke then ["*CLS"] else []) +
        (if cleared then ["*IDN?"] else []) &&
      old(stats).Below(stats) &&
      stats.ioErrors == old(stats.ioErrors) + (if identified then 0 else 1) &&
      stats.writeOnlys == old(stats.writeOnlys) + (if vxWorks && woke then 1 else 0) + (if cleared then 1 else 0) &&
      stats.writeReads == old(stats.writeReads) + (if identified then 1 else 0)
    }

    /** Nothing in the record changed and nothing was sent. */
    twostate predicate Unchanged()
      reads this
    {
      State() == old(State()) && sent == old(sent)
    }

    /** What carrying out a write plan did: Ignore succeeds and Reject
        fails, both without I/O; Send is one writeOnly of the command. */
    twostate predicate Wrote(plan: WritePlan, io: Exchange, status: Status)
      reads this
    {
      match plan
      case Ignore => status == Success && Unchanged()
      case Reject => status == Error && Unchanged()
      case Send(cmd) =>
        status == Outcome(cmd, io) && sent == old(sent) + [cmd] &&
        State() == old(State()).(stats := old(stats).AfterWriteOnly(status == Success))
    }

    /** What asking one query did: one writeRead whose end-of-message
        reason is kept; a failed exchange returns its status, a reply the
        decoder refuses is an error, any other reply is decoded. */
    twostate predicate Asked(query: string, decoder: Decoder, io: Exchange, status: Status, out: Output)
      reads this
    {
      var ok := Outcome(query, io) == Success;
      sent == old(sent) + [query] &&
      State() == old(State()).(stats := old(stats).AfterWriteRead(ok), data := old(data).(eom := io.eom)) &&
      (!ok ==> status == Outcome(query, io) && out == Nothing) &&
      (ok ==>
        match Decode(decoder, Reply(io))
        case None => status == Error && out == Nothing
        case Some(o) => status == Success && out == o)
    }

    /** What a sensor read did: one `READ?`; a reply with three tokens
        replaces reading, timestamp and status word whatever the interface,
        and anything shorter is an error that leaves the sample alone. */
    twostate predicate Sampled(k: Kind, io: Exchange, status: Status, out: Output)
      reads this
    {
      var ok := Outcome("READ?", io) == Success;
      var tokens := Tokens(Reply(io), 0);
      sent == old(sent) + ["READ?"] &&
      stats == old(stats).AfterWriteRead(ok) &&
      init == old(init) && identity == old(identity) &&
      (!ok ==> status == Outcome("READ?", io) && out == Nothing && data == old(data).(eom := io.eom)) &&
      (ok && |tokens| < 3 ==> status == Error && out == Nothing && data == old(data).(eom := io.eom)) &&
      (ok && |tokens| >= 3 ==>
        var r := ParseReading(tokens);
        status == Success && out == SampleOutput(k, r, io.eom) &&
        data == Measurement(r.reading, r.timestamp, r.raw, io.eom))
    }

    /** What carrying out a read action did. */
    twostate predicate Read(action: ReadAction, io: Exchange, status: Status, out: Output)
      reads this
    {
      match action
      case Idle => status == Success && out == Nothing && Unchanged()
      case Cached(k, c) =>
        (k == Octet ==> c.IsText()) && status == Success && out == CacheRead(k, c, identity, data) && Unchanged()
      case Ask(q, d) => Asked(q, d, io, status, out)
      case Sample(k) => Sampled(k, io, status, out)
    }

    /** Carries out a write handler's plan. */
    method Perform(plan: WritePlan, io: Exchange) returns (status: Status)
      modifies this
      ensures Wrote(plan, io, status)
    {
      match plan
      case Ignore => status := Success;
      case Reject => status := Error;
      case Send(cmd) => status := WriteOnly(cmd, io);
    }

    /** Asks one query and decodes its reply. */
    method Query(query: string, decoder: Decoder, io: Exchange) returns (status: Status, out: Output)
      modifies this
      ensures Asked(query, decoder, io, status, out)
    {
      var reply;
      status, reply := WriteRead(query, io, true);
      out := Nothing;
      if status == Success {
        match Decode(decoder, reply)
        case None => status := Error;
        case Some(o) => out := o;
      }
    }

    /** readSensorReading, with the token loop stopping at the first
        missing token. */
    method ReadSensor(k: Kind, io: Exchange) returns (status: Status, out: Output)
      modifies this
      ensures Sampled(k, io, status, out)
    {
      var reply;
      status, reply := WriteRead("READ?", io, true);
      out := Nothing;
      if status != Success {
        return;
      }
      var tokens := TokenizeReading(reply);
      if |tokens| != 3 {
        status := Error;
        return;
      }
      var r := ParseReading(tokens);
      data := Measurement(r.reading, r.timestamp, r.raw, data.eom);
      out := SampleOutput(k, r, data.eom);
    }

    /** readCache: answered from the port's record. */
    function CacheValue(k: Kind, c: CacheId): Output
      reads this
      requires k == Octet ==> c.IsText()
    {
      CacheRead(k, c, identity, data)
    }

    /** Carries out a read handler's action. */
    method Act(action: ReadAction, io: Exchange) returns (status: Status, out: Output)
      modifies this
      requires action.Cached? && action.kind == Octet ==> action.entry.IsText()
      ensures Read(action, io, status, out)
    {
      match action
      case Idle =>
        status, out := Success, Nothing;
      case Cached(k, c) =>
        status, out := Success, CacheValue(k, c);
      case Ask(q, d) =>
        status, out := Query(q, d, io);
      case Sample(k) =>
        status, out := ReadSensor(k, io);
    }

    // -------------------------------------------------------------------
    // Typed dispatch

    /** The read entry points' common body: refused before initialisation,
        otherwise the handler the entry selects. */
    method ReadEntry(h: Handler, k: Kind, io: Exchange) returns (status: Status, out: Output)
      modifies this
      requires ReadDefined(h, k)
      ensures !old(init) ==> status == Error && out == Nothing && Unchanged()
      ensures old(init) ==> Read(ReadRoute(h, k), io, status, out)
    {
      if !init {
        return Error, Nothing;
      }
      status, out := Act(ReadRoute(h, k), io);
    }

    /** The write entry points' common body; `nbytes` is what an Octet
        write reports as consumed (the whole text, for general and simple
        entries). */
    method WriteEntry(h: Handler, v: Value, io: Exchange) returns (status: Status, nbytes: Option<nat>)
      modifies this
      requires WriteDefined(h, KindOf(v))
      ensures !old(init) ==> status == Error && nbytes == None && Unchanged()
      ensures old(init) ==> Wrote(WriteRoute(h, v), io, status)
      ensures old(init) && v.TextValue? && !h.Cache? ==> nbytes == Some(|v.text|)
      ensures !(v.TextValue? && !h.Cache?) ==> nbytes == None
    {
      nbytes := None;
      if !init {
        return Error, None;
      }
      if v.TextValue? && !h.Cache? {
        nbytes := Some(|v.text|);
      }
      status := Perform(WriteRoute(h, v), io);
    }

    // -------------------------------------------------------------------
    // Initialisation

    /** The tail of the start-up routine, from the transport on: an empty
        write on vxWorks, `*CLS`, `*IDN?`, the in-place split of the reply,
        and the zeroed sample. Each failed exchange stops it with an error
        and `init` still false. */
    method Initialise(vxWorks: bool, wake: Exchange, cls: Exchange, idn: Exchange) returns (status: Status)
      modifies this
      requires !init
      requires ((!vxWorks || Outcome("", wake) == Success) && Outcome("*CLS", cls) == Success &&
        Outcome("*IDN?", idn) == Success) ==> Splittable(Reply(idn))
      ensures Initialised(vxWorks, wake, cls, idn, status)
    {
      if vxWorks {
        var s := WriteOnly("", wake);
        if s != Success {
          return Error;
        }
      }
      var s := WriteOnly("*CLS", cls);
      if s != Success {
        return Error;
      }
      var reply;
      s, reply := WriteRead("*IDN?", idn, false);
      if s != Success {
        return Error;
      }
      identity := SplitInPlace(reply);
      init := true;
      data := data.(reading := 0.0, timestamp := 0, raw := 0);
      status := Success;
    }
  }

  /** The chain of `strchr` calls that cuts the identification reply:
      past the first comma to the second, then the third comma, then two
      slashes; each cut ends one string and starts the next. */
  method SplitInPlace(reply: string) returns (id: Identity)
    requires Splittable(reply)
    ensures id == Split(reply) && WellFormed(id) && Join(id) == reply
  {
    ghost var c1, c2, c3, s1, s2 := Searches(reply);
    var first := StrChr(reply, 0, ',');
    var second := StrChr(reply, first.index + 1, ',');
    var third := StrChr(reply, second.index + 1, ',');
    var slash1 := StrChr(reply, third.index + 1, '/');
    var slash2 := StrChr(reply, slash1.index + 1, '/');
    assert second.index == c2 && third.index == c3 && slash1.index == s1 && slash2.index == s2;
    SplitAt(reply, c2, c3, s1, s2);
    id := Identity(reply[..second.index], reply[second.index + 1..third.index],
      reply[third.index + 1..slash1.index], reply[slash1.index + 1..slash2.index],
      reply[slash2.index + 1..]);
    assert id == Split(reply);
    SplitRoundTrip(reply);
    SplitWellFormed(reply);
  }
}
