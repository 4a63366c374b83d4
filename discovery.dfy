/** The discovery responder: the endless read/reply loop that answers every
    request datagram on the node's UDP socket with a pong announcing an
    address. The three copies of the loop in the repository differ only in
    how the address is found and in whether short datagrams are guarded
    against, so one Mode value selects among them:
      Relay  — announces the request's source IP with the configured remote port;
      Origin — announces this node's public IP, looked up afresh per request;
      Legacy — the early stand-alone relay: source IP with the listening port
               34197, and no guard against datagrams shorter than three bytes. */
module Discovery {
  import opened Bytes
  import opened Buffer
  import opened Packet

  /** Size of the read buffer every loop allocates once and reuses. */
  const ReadBufferSize: nat := 2048

  /** The port the legacy relay both listens on and announces. */
  const LegacyPort: uint16 := 34197

  /** A UDP address; the IP is kept as the text net.IP prints for it. */
  datatype Endpoint = Endpoint(ip: seq<byte>, port: uint16)

  datatype Mode =
    | Relay(remotePort: uint16)
    | Origin(remotePort: uint16)
    | Legacy

  /** What the public-IP service answers when it is asked. */
  datatype Lookup = PublicIp(ip: seq<byte>) | LookupFailed(err: string)

  /** One read on the main socket. A datagram carries, besides its bytes and
      its source, what the environment will answer for it: the public-IP
      lookup (consulted in Origin mode only) and whether the reply's WriteTo
      succeeds. A timed-out or closed socket is a ReadFailed. */
  datatype Event =
    | Datagram(payload: seq<byte>, source: Endpoint, lookup: Lookup, writeOk: bool)
    | ReadFailed(err: string)

  /** One WriteTo call: destination, bytes, and whether it succeeded. */
  datatype Write = Write(to: Endpoint, bytes: seq<byte>, ok: bool)

  /** What the loop does with one datagram. */
  datatype Decision =
    | Ignore             // shorter than three bytes: a keepalive, no reply
    | Drop(err: string)  // the public-IP lookup failed: no reply
    | Reply(bytes: seq<byte>)
    | Panic              // the legacy loop indexes past a short datagram

  /** How the loop ends: it has not ended within the events given, a read
      returned an error (returned from the loop as is), or the goroutine
      panicked, which takes the whole process down. */
  datatype Exit = Listening | Failed(err: string) | Crashed

  /** The bytes ReadFromUDP leaves in the 2048-byte buffer: the datagram,
      cut to the buffer's size. */
  function Received(payload: seq<byte>): (req: seq<byte>)
    ensures |req| == (if |payload| < ReadBufferSize then |payload| else ReadBufferSize)
    ensures req == payload[..|req|]
    ensures |req| < 3 <==> |payload| < 3
  {
    if |payload| < ReadBufferSize then payload else payload[..ReadBufferSize]
  }

  /** The per-datagram rule. `req` is what was read, `source` where it came from. */
  function Decide(mode: Mode, req: seq<byte>, source: Endpoint, lookup: Lookup): (d: Decision)
    ensures |req| < 3 ==> d == (if mode.Legacy? then Panic else Ignore)
    ensures d.Drop? <==> mode.Origin? && |req| >= 3 && lookup.LookupFailed?
    ensures d.Reply? <==> |req| >= 3 && !(mode.Origin? && lookup.LookupFailed?)
    ensures d.Reply? ==> |d.bytes| >= 7 && d.bytes[0] == PongOp && d.bytes[1..3] == req[1..3]
  {
    match DecodeHeader(req)
    case None =>
      if mode.Legacy? then Panic else Ignore
    case Some(header) =>
      Le16OfUint16Le(req[1..]);
      var index := header.index;
      match mode
      case Relay(remotePort) => Reply(Pong(index, HostPort(source.ip, remotePort as nat)))
      case Legacy => Reply(Pong(index, HostPort(source.ip, LegacyPort as nat)))
      case Origin(remotePort) =>
        match lookup
        case LookupFailed(err) => Drop(err)
        case PublicIp(ip) => Reply(Pong(index, HostPort(ip, remotePort as nat)))
  }

  /** What a reply announces. It echoes the request's index; its length
      field is the address length; the address splits into the host and
      port the mode prescribes: the request's source IP (never the sender's
      port) or the looked-up IP (never anything of the sender's) with the
      remote port, or the source IP with port 34197 in the legacy loop. The
      address text is exactly the `host:port` formatting of those two. */
  lemma ReplyAnnounces(mode: Mode, req: seq<byte>, source: Endpoint, lookup: Lookup)
    requires Decide(mode, req, source, lookup).Reply?
    ensures var p := Decide(mode, req, source, lookup).bytes;
      Uint16Le(p[1..3]) == Uint16Le(req[1..3]) &&
      Uint32Le(p[3..7]) == LengthField(|p| - 7) &&
      var a := match mode
        case Relay(remotePort) => HostAndPort(source.ip, remotePort as nat)
        case Origin(remotePort) => HostAndPort(lookup.ip, remotePort as nat)
        case Legacy => HostAndPort(source.ip, LegacyPort as nat);
      p[7..] == HostPort(a.host, a.port) && SplitHostPort(p[7..]) == Some(a)
  {
    var d := Decide(mode, req, source, lookup);
    PongFields(Uint16Le(req[1..]), d.bytes[7..]);
    match mode
    case Relay(remotePort) => AddressRoundTrip(source.ip, remotePort as nat);
    case Origin(remotePort) => AddressRoundTrip(lookup.ip, remotePort as nat);
    case Legacy => AddressRoundTrip(source.ip, LegacyPort as nat);
  }

  /** Only bytes 1-2 of a request matter: its opcode and anything after the
      index are never looked at. */
  lemma OnlyIndexMatters(mode: Mode, a: seq<byte>, b: seq<byte>, source: Endpoint, lookup: Lookup)
    requires |a| >= 3 && |b| >= 3 && a[1..3] == b[1..3]
    ensures Decide(mode, a, source, lookup) == Decide(mode, b, source, lookup)
  {
    assert a[1] == b[1] && a[2] == b[2] by {
      assert a[1..3][0] == b[1..3][0] && a[1..3][1] == b[1..3][1];
    }
    assert DecodeHeader(a).value.index == DecodeHeader(b).value.index;
  }

  /** The whole loop over a run of events: the writes it issues, how many
      times it asks the public-IP service, and how it ends. */
  datatype Trace = Trace(writes: seq<Write>, lookups: nat, exit: Exit)

  function Serve(mode: Mode, events: seq<Event>): Trace
    decreases |events|
  {
    if events == [] then Trace([], 0, Listening)
    else if Stops(mode, events[0]) then Trace([], 0, StopExit(events[0]))
    else
      var rest := Serve(mode, events[1..]);
      Trace(SentFor(mode, events[0]) + rest.writes, AskedFor(mode, events[0]) + rest.lookups, rest.exit)
  }

  /** Events that end the loop: a failed read, or a datagram the rule
      panics on. */
  predicate Stops(mode: Mode, e: Event) {
    e.ReadFailed? || Decide(mode, Received(e.payload), e.source, e.lookup).Panic?
  }

  /** How the loop ends on a stopping event. */
  function StopExit(e: Event): Exit {
    if e.ReadFailed? then Failed(e.err) else Crashed
  }

  /** The write one datagram leads to: its pong, sent back to its source,
      or nothing. */
  function SentFor(mode: Mode, e: Event): seq<Write>
    requires e.Datagram?
  {
    var d := Decide(mode, Received(e.payload), e.source, e.lookup);
    if d.Reply? then [Write(e.source, d.bytes, e.writeOk)] else []
  }

  /** Whether handling one datagram asks the public-IP service. */
  function AskedFor(mode: Mode, e: Event): nat
    requires e.Datagram?
  {
    if mode.Origin? && |Received(e.payload)| >= 3 then 1 else 0
  }

  /** The stopping events, said directly: a failed read, and in the legacy
      loop only, a datagram too short to hold an index. */
  lemma StopsExactly(mode: Mode, e: Event)
    ensures Stops(mode, e) <==> e.ReadFailed? || (mode.Legacy? && |e.payload| < 3)
  {
  }

  /** Position of the first stopping event, or the number of events. */
  function StopAt(mode: Mode, events: seq<Event>): (k: nat)
    ensures k <= |events|
    ensures forall i :: 0 <= i < k ==> !Stops(mode, events[i])
    ensures k < |events| ==> Stops(mode, events[k])
    decreases |events|
  {
    if events == [] || Stops(mode, events[0]) then 0
    else 1 + StopAt(mode, events[1..])
  }

  /** A datagram that gets a pong: it holds an index and, on an origin
      node, its lookup succeeded. */
  predicate Answered(mode: Mode, e: Event) {
    e.Datagram? && |e.payload| >= 3 && !(mode.Origin? && e.lookup.LookupFailed?)
  }

  /** The answered datagrams among `events`, in arrival order. */
  function AnsweredIn(mode: Mode, events: seq<Event>): (r: seq<Event>)
    ensures |r| <= |events|
    ensures forall i :: 0 <= i < |r| ==> Answered(mode, r[i])
    decreases |events|
  {
    if events == [] then []
    else (if Answered(mode, events[0]) then [events[0]] else []) + AnsweredIn(mode, events[1..])
  }

  /** The number of datagrams among `events` that hold an index. */
  function IndexedCount(events: seq<Event>): (n: nat)
    ensures n <= |events|
    decreases |events|
  {
    if events == [] then 0
    else (if events[0].Datagram? && |events[0].payload| >= 3 then 1 else 0) + IndexedCount(events[1..])
  }

  /** The pong the rule produces for an answered datagram. */
  function PongFor(mode: Mode, e: Event): (p: seq<byte>)
    requires Answered(mode, e)
    ensures |p| >= 7 && p[0] == PongOp && p[1..3] == e.payload[1..3]
  {
    Decide(mode, Received(e.payload), e.source, e.lookup).bytes
  }

  /** One write per answered datagram, in the same order: its pong, sent to
      its own source address. */
  function RepliesTo(mode: Mode, answered: seq<Event>): (w: seq<Write>)
    requires forall i :: 0 <= i < |answered| ==> Answered(mode, answered[i])
    ensures |w| == |answered|
    ensures forall i :: 0 <= i < |w| ==>
      (answered[i].Datagram? &&
       w[i] == Write(answered[i].source, PongFor(mode, answered[i]), answered[i].writeOk))
    decreases |answered|
  {
    if answered == [] then []
    else
      var e := answered[0];
      assert Answered(mode, e);
      [Write(e.source, PongFor(mode, e), e.writeOk)] + RepliesTo(mode, answered[1..])
  }

  /** Handling a datagram the loop does not stop on: the events before the
      first stop are that datagram, then those before the first stop of the rest. */
  lemma ServeStep(mode: Mode, events: seq<Event>)
    requires events != [] && !Stops(mode, events[0])
    ensures var k := StopAt(mode, events);
      k == 1 + StopAt(mode, events[1..]) &&
      events[..k][0] == events[0] && events[..k][1..] == events[1..][..k - 1]
  {
    var k := StopAt(mode, events);
    assert events[..k][1..] == events[1..][..k - 1];
  }

  /** A datagram the loop handles leads to a write exactly when it is
      answered, and the write is its pong back to its source. */
  lemma SentForAnswered(mode: Mode, e: Event)
    requires e.Datagram?
    ensures SentFor(mode, e) ==
      if Answered(mode, e) then [Write(e.source, PongFor(mode, e), e.writeOk)] else []
  {
  }

  /** `Serve` from position i on, one event unfolded. */
  lemma ServeFrom(mode: Mode, events: seq<Event>, i: nat)
    requires i < |events|
    ensures var e, t, u := events[i], Serve(mode, events[i..]), Serve(mode, events[i + 1..]);
      t == if Stops(mode, e) then Trace([], 0, StopExit(e))
           else Trace(SentFor(mode, e) + u.writes, AskedFor(mode, e) + u.lookups, u.exit)
  {
    assert events[i..][0] == events[i] && events[i..][1..] == events[i + 1..];
  }

  /** The loop answers, in order, exactly the answered datagrams before the
      first stopping event: one WriteTo each, addressed to the datagram's
      own source, whatever earlier writes returned. */
  lemma {:induction false} ServeReplies(mode: Mode, events: seq<Event>)
    ensures Serve(mode, events).writes == RepliesTo(mode, AnsweredIn(mode, events[..StopAt(mode, events)]))
    decreases |events|
  {
    if events != [] && !Stops(mode, events[0]) {
      var e, rest := events[0], events[1..];
      AnsweredStep(mode, events);
      SentForAnswered(mode, e);
      ServeReplies(mode, rest);
      if Answered(mode, e) {
        RepliesCons(mode, e, AnsweredIn(mode, rest[..StopAt(mode, rest)]));
      }
    }
  }

  /** The answered datagrams before the first stop, one handled datagram unfolded. */
  lemma AnsweredStep(mode: Mode, events: seq<Event>)
    requires events != [] && !Stops(mode, events[0])
    ensures var rest := events[1..];
      AnsweredIn(mode, events[..StopAt(mode, events)]) ==
        (if Answered(mode, events[0]) then [events[0]] else []) + AnsweredIn(mode, rest[..StopAt(mode, rest)])
  {
    ServeStep(mode, events);
  }

  /** The replies to an answered datagram followed by more: its write first. */
  lemma RepliesCons(mode: Mode, e: Event, answered: seq<Event>)
    requires Answered(mode, e) && forall i :: 0 <= i < |answered| ==> Answered(mode, answered[i])
    ensures RepliesTo(mode, [e] + answered) == [Write(e.source, PongFor(mode, e), e.writeOk)] + RepliesTo(mode, answered)
  {
    assert ([e] + answered)[1..] == answered;
  }

  /** The loop asks the public-IP service once for every datagram it
      handles that holds an index, and only in Origin mode: no caching,
      and a failed answer is not retried. */
  lemma {:induction false} ServeLookups(mode: Mode, events: seq<Event>)
    ensures Serve(mode, events).lookups ==
      (if mode.Origin? then IndexedCount(events[..StopAt(mode, events)]) else 0)
    decreases |events|
  {
    if events != [] && !Stops(mode, events[0]) {
      ServeStep(mode, events);
      ServeLookups(mode, events[1..]);
    }
  }

  /** The loop ends only on a failed read, returning its error, or, in the
      legacy loop only, by crashing on a short datagram; short datagrams,
      failed lookups and failed writes never end it. */
  lemma {:induction false} ServeExit(mode: Mode, events: seq<Event>)
    ensures var k := StopAt(mode, events);
      Serve(mode, events).exit ==
        if k == |events| then Listening
        else if events[k].ReadFailed? then Failed(events[k].err)
        else Crashed
    ensures Serve(mode, events).exit == Crashed ==> mode.Legacy?
    decreases |events|
  {
    if events != [] {
      StopsExactly(mode, events[0]);
      if !Stops(mode, events[0]) {
        ServeExit(mode, events[1..]);
      }
    }
  }

  /** A datagram shorter than three bytes is skipped: the relay and origin
      loops carry on exactly as if it had never arrived. */
  lemma ShortDatagramSkipped(mode: Mode, payload: seq<byte>, source: Endpoint, lookup: Lookup,
                             writeOk: bool, rest: seq<Event>)
    requires !mode.Legacy? && |payload| < 3
    ensures Serve(mode, [Datagram(payload, source, lookup, writeOk)] + rest) == Serve(mode, rest)
  {
  }

  /** A failed lookup drops only its own request: the origin loop goes on
      with the next datagram, having asked the service once. */
  lemma LookupFailureSkipped(remotePort: uint16, payload: seq<byte>, source: Endpoint, err: string,
                             writeOk: bool, rest: seq<Event>)
    requires |payload| >= 3
    ensures var t := Serve(Origin(remotePort), [Datagram(payload, source, LookupFailed(err), writeOk)] + rest);
      var u := Serve(Origin(remotePort), rest);
      t == Trace(u.writes, u.lookups + 1, u.exit)
  {
  }

  /** The legacy loop, as written, crashes on a two-byte datagram and so
      answers nothing that follows it. */
  lemma LegacyCrashesOnShortDatagram(source: Endpoint, lookup: Lookup, writeOk: bool, rest: seq<Event>)
    ensures Serve(Legacy, [Datagram([0, 5], source, lookup, writeOk)] + rest) == Trace([], 0, Crashed)
  {
  }

  /** The relay loop with the legacy port is the legacy loop with the
      short-datagram guard added: on traffic without short datagrams the two
      behave identically, and a short datagram is skipped instead of
      crashing the process. */
  lemma {:induction false} RelayIsGuardedLegacy(events: seq<Event>)
    requires forall i :: 0 <= i < |events| && events[i].Datagram? ==> |events[i].payload| >= 3
    ensures Serve(Relay(LegacyPort), events) == Serve(Legacy, events)
    decreases |events|
  {
    if events != [] && events[0].Datagram? {
      RelayIsGuardedLegacy(events[1..]);
    }
  }

  /** The address a relay with remote port 7777 announces to 203.0.113.9. */
  lemma ExampleAddress()
    ensures HostPort(Ascii("203.0.113.9"), 7777) == Ascii("203.0.113.9:7777")
  {
  }

  /** The pong with index 5 for a 16-byte address. */
  lemma ExamplePong(address: seq<byte>)
    requires |address| == 16
    ensures Pong(5, address) == [0x09, 0x05, 0x00, 0x10, 0x00, 0x00, 0x00] + address
  {
  }

  /** Relay with remote port 7777: [0x00, 0x05, 0x00] from 203.0.113.9:55000
      is answered, at 203.0.113.9:55000, with [0x09, 0x05, 0x00, 0x10, 0, 0, 0]
      followed by the 16 bytes of "203.0.113.9:7777". */
  lemma RelayExample(lookup: Lookup)
    ensures var source := Endpoint(Ascii("203.0.113.9"), 55000);
      Serve(Relay(7777), [Datagram([0x00, 0x05, 0x00], source, lookup, true)]) ==
      Trace([Write(source, [0x09, 0x05, 0x00, 0x10, 0x00, 0x00, 0x00] + Ascii("203.0.113.9:7777"), true)],
            0, Listening)
  {
    var source := Endpoint(Ascii("203.0.113.9"), 55000);
    var req: seq<byte> := [0x00, 0x05, 0x00];
    var address := Ascii("203.0.113.9:7777");
    ExampleAddress();
    ExamplePong(address);
    assert Uint16Le(req[1..]) == 5;
    assert Decide(Relay(7777), req, source, lookup) == Reply(Pong(5, address));
    var e := Datagram(req, source, lookup, true);
    assert [e][1..] == [];
  }

  lemma AppendAssoc<T>(a: seq<T>, b: seq<T>, c: seq<T>)
    ensures a + (b + c) == (a + b) + c
  {
  }

  /** The responder of one node: its mode, the read buffer it reuses, and
      what it has done so far. */
  class Responder {
    const mode: Mode
    /** b := make([]byte, 2048), shared by every read. */
    const buffer: array<byte>
    /** Every WriteTo issued, in order, with its outcome. */
    var outbox: seq<Write>
    /** How many times the public-IP service has been asked. */
    var lookups: nat

    constructor (mode: Mode)
      ensures this.mode == mode && fresh(buffer) && buffer.Length == ReadBufferSize
      ensures outbox == [] && lookups == 0
    {
      this.mode := mode;
      buffer := new byte[ReadBufferSize];
      outbox := [];
      lookups := 0;
    }

    /** conn.ReadFromUDP(b): copies as much of the datagram as fits into the
        buffer and returns the count. */
    method ReadInto(payload: seq<byte>) returns (cc: nat)
      requires buffer.Length == ReadBufferSize
      modifies buffer
      ensures cc == |Received(payload)| && buffer[..cc] == Received(payload)
    {
      cc := if |payload| < ReadBufferSize then |payload| else ReadBufferSize;
      var j := 0;
      while j < cc
        invariant 0 <= j <= cc
        invariant buffer[..j] == payload[..j]
      {
        buffer[j] := payload[j];
        j := j + 1;
      }
    }

    /** One pass of the loop body. A failed read ends the loop with its
        error. Otherwise the datagram is read into the buffer and skipped
        when short (the legacy loop panics instead); else the pong is
        built, asking the public-IP service first in Origin mode, and
        written back to the source. */
    method Step(e: Event) returns (stop: Option<Exit>)
      requires buffer.Length == ReadBufferSize
      modifies this, buffer
      ensures Stops(mode, e) ==> stop == Some(StopExit(e)) && outbox == old(outbox) && lookups == old(lookups)
      ensures !Stops(mode, e) ==> (stop == None &&
        outbox == old(outbox) + SentFor(mode, e) && lookups == old(lookups) + AskedFor(mode, e))
    {
      if e.ReadFailed? {
        return Some(Failed(e.err));
      }
      var Datagram(payload, source, lookup, writeOk) := e;
      var cc := ReadInto(payload);
      var req := buffer[..cc];
      assert req == Received(payload);
      var header := DecodeHeader(req);
      if header.None? {
        if mode.Legacy? {
          // req[1:] and Uint16 index past the end: a runtime panic
          return Some(Crashed);
        }
        // keepalive: no reply
        return None;
      }
      var index := header.value.index;
      var buf := new ByteBuffer();
      WritePongHeader(buf, index);
      assert buf.data == [PongOp] + Le16(index);
      var address: seq<byte>;
      match mode {
        case Relay(remotePort) =>
          address := HostPort(source.ip, remotePort as nat);
        case Legacy =>
          address := HostPort(source.ip, LegacyPort as nat);
        case Origin(remotePort) =>
          lookups := lookups + 1;
          match lookup {
            case LookupFailed(err) =>
              return None;
            case PublicIp(ip) =>
              address := HostPort(ip, remotePort as nat);
          }
      }
      WriteAddress(buf, address);
      assert buf.data == Pong(index, address);
      assert Decide(mode, req, source, lookup) == Reply(Pong(index, address));
      // WriteTo's error is only logged
      outbox := outbox + [Write(source, buf.Bytes(), writeOk)];
      stop := None;
    }

    /** The discovery loop over the events the socket delivers. */
    method Listen(events: seq<Event>) returns (exit: Exit)
      requires buffer.Length == ReadBufferSize
      modifies this, buffer
      ensures var t := Serve(mode, events);
        outbox == old(outbox) + t.writes && lookups == old(lookups) + t.lookups && exit == t.exit
    {
      ghost var t := Serve(mode, events);
      var i := 0;
      assert events[0..] == events;
      while i < |events|
        invariant 0 <= i <= |events|
        invariant var u := Serve(mode, events[i..]);
          old(outbox) + t.writes == outbox + u.writes &&
          old(lookups) + t.lookups == lookups + u.lookups && t.exit == u.exit
      {
        ghost var before := outbox;
        ServeFrom(mode, events, i);
        var stop := Step(events[i]);
        if stop.Some? {
          return stop.value;
        }
        AppendAssoc(before, SentFor(mode, events[i]), Serve(mode, events[i + 1..]).writes);
        i := i + 1;
      }
      exit := Listening;
    }
  }
}
