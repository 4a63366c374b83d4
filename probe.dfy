/** The liveness probe: open an ephemeral UDP socket, send one ping, wait
    (up to five seconds) for any datagram back. It backs the two HTTP health
    handlers of both nodes and the stand-alone ping command. Sockets, the
    random index, name resolution and the deadline are inputs: a timed-out
    read is one kind of failed read. */
module Probe {
  import opened Bytes
  import opened Packet
  import opened Discovery

  const StatusOK: nat := 200
  const StatusInternalServerError: nat := 500
  const StatusBadGateway: nat := 502

  /** The loopback address the /health probe targets. */
  function Loopback(): seq<byte> {
    Ascii("127.0.0.1")
  }

  /** Whether net.ListenUDP gave the probe its socket. */
  datatype Bind = Bound | BindFailed(err: string)

  /** What the one ReadFromUDP after the ping returns: some datagram, or an
      error (the deadline passing is one). */
  datatype Readback = GotDatagram(payload: seq<byte>, from: Endpoint) | NoDatagram(err: string)

  datatype ProbeOutcome = Alive | SocketFailed(err: string) | NoReply(err: string)

  /** One probe against `target`. A failed write is only logged and the
      read still happens; any datagram read back counts as a reply, with
      neither its opcode nor its index looked at. */
  method Probe(target: Endpoint, bind: Bind, index: uint16, writeOk: bool, readback: Readback)
    returns (outcome: ProbeOutcome, sent: Option<Write>)
    ensures bind.BindFailed? ==> outcome == SocketFailed(bind.err) && sent == None
    ensures bind.Bound? ==> sent == Some(Write(target, Ping(index), writeOk))
    ensures bind.Bound? ==> (outcome == Alive <==> readback.GotDatagram?)
    ensures bind.Bound? && readback.NoDatagram? ==> outcome == NoReply(readback.err)
  {
    if bind.BindFailed? {
      return SocketFailed(bind.err), None;
    }
    var ping := BuildPing(index);
    // WriteTo's error is only logged
    sent := Some(Write(target, ping, writeOk));
    match readback
    case NoDatagram(err) =>
      outcome := NoReply(err);
    case GotDatagram(_, _) =>
      outcome := Alive;
  }

  /** The node whose HTTP server serves the handler: the relay
      (remote command) or the origin (local command). */
  datatype Node = RelayNode | OriginNode

  /** /health probes this node's own discovery port over loopback;
      /health_for_factorio probes the HTTP caller's IP at the remote port. */
  datatype Handler = Health | HealthForFactorio

  datatype Response = Response(status: nat, body: string)

  /** One health request. A socket that cannot be opened answers 500 with
      the error; a probe without reply answers 502 on the relay and 500 on
      the origin, with the read error; any datagram read back answers 200 "OK". */
  method HandleHealth(node: Node, handler: Handler, listenPort: uint16, remotePort: uint16,
                      callerIp: seq<byte>, bind: Bind, index: uint16, writeOk: bool, readback: Readback)
    returns (response: Response, sent: Option<Write>)
    ensures response.status == StatusOK <==> bind.Bound? && readback.GotDatagram?
    ensures response.status == StatusOK ==> response.body == "OK"
    ensures bind.BindFailed? ==> response == Response(StatusInternalServerError, bind.err) && sent == None
    ensures bind.Bound? && readback.NoDatagram? ==>
      response == Response(if node.RelayNode? then StatusBadGateway else StatusInternalServerError, readback.err)
    ensures bind.Bound? ==> sent == Some(Write(
      if handler.Health? then Endpoint(Loopback(), listenPort) else Endpoint(callerIp, remotePort),
      Ping(index), writeOk))
  {
    var target := if handler.Health? then Endpoint(Loopback(), listenPort) else Endpoint(callerIp, remotePort);
    var outcome;
    outcome, sent := Probe(target, bind, index, writeOk, readback);
    match outcome
    case SocketFailed(err) =>
      response := Response(StatusInternalServerError, err);
    case NoReply(err) =>
      response := Response(if node.RelayNode? then StatusBadGateway else StatusInternalServerError, err);
    case Alive =>
      response := Response(StatusOK, "OK");
  }

  /** What net.LookupIP gave for the target host name. */
  datatype Resolution = Resolved(ips: seq<seq<byte>>) | ResolveFailed(err: string)

  /** How the ping command ends: normally, through a fatal log (exit
      status 1), or through an index-out-of-range panic. */
  datatype PingExit = Reachable | Fatal(err: string) | IndexPanic

  /** The ping command as written: a resolution error is only logged, and
      the first address of the (then empty) answer is taken anyway. The
      probe targets the first address at the configured port; a failed
      socket or a failed read is fatal. */
  method PingCommand(port: uint16, resolution: Resolution, bind: Bind, index: uint16,
                     writeOk: bool, readback: Readback)
    returns (exit: PingExit, sent: Option<Write>)
    ensures (resolution.ResolveFailed? || resolution.ips == []) ==> exit == IndexPanic && sent == None
    ensures resolution.Resolved? && resolution.ips != [] ==>
      (bind.BindFailed? ==> exit == Fatal(bind.err) && sent == None) &&
      (bind.Bound? ==> sent == Some(Write(Endpoint(resolution.ips[0], port), Ping(index), writeOk))) &&
      (bind.Bound? ==> exit == if readback.GotDatagram? then Reachable else Fatal(readback.err))
  {
    // a failed lookup leaves the address list nil; it is only logged
    var ips := if resolution.Resolved? then resolution.ips else [];
    if ips == [] {
      // ips[0]: index out of range
      return IndexPanic, None;
    }
    exit, sent := PingTo(Endpoint(ips[0], port), bind, index, writeOk, readback);
  }

  /** The ping command with the resolution error treated as fatal, as the
      logging of it evidently intends: it never panics, and otherwise
      behaves as written. */
  method PingCommandChecked(port: uint16, resolution: Resolution, bind: Bind, index: uint16,
                            writeOk: bool, readback: Readback)
    returns (exit: PingExit, sent: Option<Write>)
    ensures exit != IndexPanic
    ensures resolution.ResolveFailed? ==> exit == Fatal(resolution.err) && sent == None
    ensures resolution.Resolved? && resolution.ips == [] ==> exit.Fatal? && sent == None
    ensures resolution.Resolved? && resolution.ips != [] ==>
      (bind.BindFailed? ==> exit == Fatal(bind.err) && sent == None) &&
      (bind.Bound? ==> sent == Some(Write(Endpoint(resolution.ips[0], port), Ping(index), writeOk))) &&
      (bind.Bound? ==> exit == if readback.GotDatagram? then Reachable else Fatal(readback.err))
  {
    match resolution
    case ResolveFailed(err) =>
      return Fatal(err), None;
    case Resolved(ips) =>
      if ips == [] {
        return Fatal("no such host"), None;
      }
      exit, sent := PingTo(Endpoint(ips[0], port), bind, index, writeOk, readback);
  }

  /** The probe of the ping command, with a failed socket or read fatal. */
  method PingTo(target: Endpoint, bind: Bind, index: uint16, writeOk: bool, readback: Readback)
    returns (exit: PingExit, sent: Option<Write>)
    ensures exit != IndexPanic
    ensures bind.BindFailed? ==> exit == Fatal(bind.err) && sent == None
    ensures bind.Bound? ==> sent == Some(Write(target, Ping(index), writeOk))
    ensures bind.Bound? ==> exit == if readback.GotDatagram? then Reachable else Fatal(readback.err)
  {
    var outcome;
    outcome, sent := Probe(target, bind, index, writeOk, readback);
    match outcome
    case SocketFailed(err) =>
      exit := Fatal(err);
    case NoReply(err) =>
      exit := Fatal(err);
    case Alive =>
      exit := Reachable;
  }
}
