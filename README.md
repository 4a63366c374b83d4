# factorio-port-fixer discovery protocol, modelled in Dafny

factorio-port-fixer lets a UDP game server behind NAT learn the address at
which it can really be reached. A node listens on a UDP port. Each request
datagram of at least three bytes gets a *pong* back: opcode 9, the request's
16-bit index echoed little-endian, a little-endian uint32 length, and an
address text `ip:port`. The repository holds three copies of that loop:

- the **relay** (`remote` command, `cmd/remote.go`) announces the request's
  source IP with the configured remote port;
- the **origin** (`local` command, `cmd/local.go`) asks a public-IP service
  for every request and announces that IP with the remote port; when the
  lookup fails it sends nothing;
- the **legacy relay** (`main.go`) announces the source IP with its own
  listening port 34197 and has no guard against short datagrams.

A *ping* `[0, index lo, index hi]` is used by a liveness probe. The probe is
behind the `/health` and `/health_for_factorio` HTTP handlers of both nodes
and behind the stand-alone `ping` command. Any datagram that comes back
counts as success.

Files:

- `bytes.dfy` (module `Bytes`): byte, uint16 and uint32 types, the
  little-endian encoders and readers, decimal text, and `host:port` text
  with a reader that splits it again.
- `buffer.dfy` (module `Buffer`): the `ByteBuffer` class, Go's
  `bytes.Buffer` reduced to `WriteByte` and `Write`.
- `packet.dfy` (module `Packet`): ping and pong framing, their readers, and
  the methods that build each packet by appending to a buffer.
- `discovery.dfy` (module `Discovery`): one `Mode` value (`Relay`, `Origin`
  or `Legacy`) selects among the three loops. It holds the per-datagram
  rule `Decide` and the whole-loop specification `Serve`. Its
  `Responder` class has the reused 2048-byte read buffer, the outbox of
  issued writes and a count of public-IP lookups. Its `Listen` method is
  proved against `Serve`.
- `probe.dfy` (module `Probe`): the probe, the health handlers of both
  nodes, and the ping command.

Sockets, the public-IP service, DNS, the random index and the read
deadline are inputs. Each inbound datagram carries the lookup answer it
would get and whether its reply's `WriteTo` succeeds. A timed-out read is a
failed read.

Two behaviours of the code worth noting:

- A read error on the main socket ends the loop with that error. This
  includes the error caused by closing the socket at shutdown. The code
  does not tell the two apart.
- A probe with no reply answers 502 on the relay but 500 on the origin.

## Model

| member | source | states |
|---|---|---|
| `Bytes.Le16` | cmd/remote.go:242-244 | PutUint16 gives two bytes, the low byte of the index first, then the high byte |
| `Bytes.Le16RoundTrip` | cmd/remote.go:237-244 | the two bytes written by PutUint16 read back with Uint16 as the same index |
| `Bytes.Le16OfUint16Le` | cmd/remote.go:237-244 | reading the index and writing it back gives exactly the request's bytes 1-2, so the index is echoed byte for byte |
| `Bytes.Le32` | cmd/remote.go:248-251 | PutUint32 gives four bytes, least significant first and most significant last |
| `Bytes.Le32RoundTrip` | cmd/remote.go:248-251 | the four bytes written by PutUint32 read back with Uint32 as the same length |
| `Bytes.Le32OfUint32Le` | cmd/remote.go:249-251 | four length bytes are the only encoding of the value read from them |
| `Bytes.LengthField` | cmd/remote.go:248 | `uint32(len(address))` is the address length whenever that length fits in 32 bits |
| `Bytes.Decimal` | cmd/remote.go:246 | `Decimal(n)` is one or more ASCII digits whose first digit is '0' only when n is 0 |
| `Bytes.DecimalRoundTrip` | cmd/remote.go:246 | the decimal port text reads back as the port |
| `Bytes.HostPort` | cmd/remote.go:246 | the address is the host text, then a colon, then the decimal port |
| `Bytes.AddressRoundTrip` | cmd/remote.go:246 | every announced address splits at its last colon into exactly the host and port it was formatted from, even when the host text has colons (IPv6) |
| `Packet.Ping` | cmd/remote.go:114-118 | a ping is 3 bytes: opcode 0, then the index little-endian; read as a request it gives opcode 0 and that index |
| `Packet.Pong` | cmd/remote.go:239-253 | a pong is exactly 7 + len(address) bytes, and the address is its tail with nothing after it |
| `Packet.PongFields` | cmd/remote.go:239-251 | pong byte 0 is 9; bytes 1-2 read as the index; bytes 3-6 read as the 32-bit length of the address |
| `Packet.PongRoundTrip` | cmd/remote.go:239-253 | reading a pong back gives its index and address |
| `Packet.PongDecodeExact` | cmd/remote.go:248-253 | anything that reads as a pong is, byte for byte, the pong built from what was read |
| `Packet.DecodeHeader` | cmd/remote.go:232-237 | a request is malformed exactly when it is shorter than 3 bytes |
| `Packet.WritePongHeader` | cmd/remote.go:239-244 | the first pong writes append 9 and the little-endian index to the buffer |
| `Packet.WriteAddress` | cmd/remote.go:248-253 | the last pong writes append the uint32 length and the address bytes |
| `Packet.BuildPing` | cmd/ping.go:56-62 | the ping built by appending to a fresh buffer is `Ping(index)` |
| `Packet.BuildPong` | main.go:59-73 | the pong built by appending to a fresh buffer is `Pong(index, address)` |
| `Discovery.Received` | cmd/remote.go:220-232 | the request is the datagram cut to the 2048-byte read buffer; it is short exactly when the datagram is |
| `Discovery.Decide` | cmd/remote.go:232-253 | short request: no reply (legacy: panic). Reply exactly when the request has 3 bytes and, for the origin, the lookup succeeded. Drop exactly on a failed origin lookup. A reply starts with 9 and copies the request's bytes 1-2 |
| `Discovery.ReplyAnnounces` | cmd/remote.go:237-253 | a reply echoes the index and its length field is the address length. The relay's address is the source IP with the remote port, not the sender's port. The origin's (cmd/local.go:215) is the looked-up IP with the remote port, with nothing of the sender's. The legacy one (main.go:66) is the source IP with port 34197. In every mode the address bytes are exactly `HostPort` of that host and port |
| `Discovery.OnlyIndexMatters` | cmd/remote.go:237-241 | two requests with equal bytes 1-2 get the same decision; the opcode and bytes after the index are never read |
| `Discovery.StopsExactly` | main.go:46-57 | the loop stops on a failed read; the legacy loop also stops on a datagram shorter than 3 bytes |
| `Discovery.ServeReplies` | cmd/remote.go:214-264 | the writes are one per answered datagram before the first stop, in arrival order. Each is that datagram's pong, sent to its exact source address, whatever earlier writes returned |
| `Discovery.ServeLookups` | cmd/local.go:209-214 | the origin asks the public-IP service once for each handled datagram of at least 3 bytes, with no caching; other modes never ask |
| `Discovery.ServeExit` | cmd/remote.go:220-226 | the loop ends only at the first failed read, with that read's error, or by crashing in the legacy loop; short datagrams, failed lookups and failed writes never end it |
| `Discovery.ShortDatagramSkipped` | cmd/local.go:195-199 | for the relay and origin, a datagram under 3 bytes changes nothing: the loop goes on as if it had not arrived |
| `Discovery.LookupFailureSkipped` | cmd/local.go:210-214 | a failed lookup sends nothing for its request, counts one lookup, and the loop goes on with the next datagram |
| `Discovery.LegacyCrashesOnShortDatagram` | main.go:56-57 | the legacy loop given `[0x00, 0x05]` crashes and answers nothing more |
| `Discovery.RelayIsGuardedLegacy` | main.go:40-84 | the relay on port 34197 is the legacy loop with the short-datagram guard: on traffic with no short datagrams the two produce the same trace |
| `Discovery.RelayExample` | cmd/remote.go:237-255 | relay with remote port 7777, `[0x00,0x05,0x00]` from 203.0.113.9:55000: reply `[0x09,0x05,0x00,0x10,0,0,0]` + `"203.0.113.9:7777"` to 203.0.113.9:55000 |
| `Discovery.Responder.constructor` | cmd/remote.go:57 | a fresh responder has a fresh 2048-byte read buffer, an empty outbox and no lookups |
| `Discovery.Responder.ReadInto` | cmd/remote.go:220 | the read copies the datagram, cut to the buffer size, into the reused buffer and returns the count |
| `Discovery.Responder.Step` | cmd/local.go:185-231 | one loop pass: on a failed read, or a short datagram in the legacy loop, it returns that exit and changes nothing. Otherwise it returns no exit, appends that datagram's write, if any, to the outbox and adds its lookups to the count |
| `Discovery.Responder.Listen` | cmd/remote.go:214-264 | the loop appends exactly `Serve`'s writes to the outbox, adds `Serve`'s lookups, and returns `Serve`'s exit |
| `Probe.Probe` | cmd/remote.go:105-147 | a failed socket open fails the probe with no ping sent. Otherwise the ping goes to the target whatever the write returns. The probe succeeds exactly when some datagram is read back, whatever its contents; a failed read, such as a timeout, fails it with its error |
| `Probe.HandleHealth` | cmd/remote.go:97-202 | status 200 "OK" exactly when a datagram comes back. A failed socket gives 500. No reply gives 502 on the relay and 500 on the origin (cmd/local.go:104-114, 156-166). `/health` pings 127.0.0.1 at the listening port; `/health_for_factorio` pings the caller's IP at the remote port |
| `Probe.PingTo` | cmd/ping.go:50-84 | the command's probe: a failed socket or failed read is fatal with its error; any datagram read back ends it normally |
| `Probe.PingCommand` | cmd/ping.go:37-85 | as written: a failed or empty resolution ends in an index panic before any socket is opened; otherwise it pings the first resolved IP at the configured port |
| `Probe.PingCommandChecked` | cmd/ping.go:43-48 | corrected: a failed resolution is fatal with its error and never panics; otherwise it behaves as written |

## Left out

- Signal handling, the errgroup supervision of the tasks, and the shutdown goroutine: concurrency. The loop's end by socket closure is the `ReadFailed` event.
- The echo HTTP server, its routing, middleware and request logging: framework glue. Only the mapping from probe result to response is modelled.
- The public-IP service (ipify): an external HTTP call. Each datagram carries the answer, an IP text or a failure.
- DNS resolution, and socket listen, read and write: their results are inputs.
- The five-second read deadline: wall-clock time. A timeout is one kind of failed read.
- `rand.Intn`: the probe index is any uint16 input.
- `net.IP` text formatting, including IPv6 compression: the IP is opaque text. This includes the missing brackets around an IPv6 host in `ip:port`.
- `c.RealIP()` text that does not parse as an IP: the caller IP is taken as IP text.
- The zap logging of every read, write and failure: logging only. A failed `WriteTo` is recorded only as the `ok` flag of its `Write`.
- Cobra flag registration: configuration. The default host is 0.0.0.0; the listening port and the remote port both default to 34197, independently.
- The probe sockets are never closed: a resource-lifetime issue outside the byte-level model.
- The endless loop is modelled over a finite run of events. `Listening` means the loop had not ended when the events ran out.

## Findings

| source | as written | input that shows it | evidently intended | confidence | as-written member | corrected member |
|---|---|---|---|---|---|---|
| main.go:56-57 | with no length guard, `req[1:]` and the uint16 read index past a datagram shorter than 3 bytes; the goroutine panics and the process dies | a 2-byte datagram `[0x00, 0x05]` (or an empty one) from anyone | ignore it as a keepalive and keep serving, as the later copies do (cmd/remote.go:233-236) | not executed; high | `Discovery.LegacyCrashesOnShortDatagram` | `Discovery.RelayIsGuardedLegacy` |
| cmd/ping.go:43-48 | a resolution error is only logged, then `ips[0]` indexes the nil result and panics | a host name that does not resolve | stop with the resolution error | not executed; medium | `Probe.PingCommand` | `Probe.PingCommandChecked` |
