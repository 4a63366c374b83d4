/** The discovery wire format. A ping is [0x00, index lo, index hi]; a pong
    is [0x09, index lo, index hi, address length as a little-endian uint32,
    address bytes], with no terminator after the address. */
module Packet {
  import opened Bytes
  import opened Buffer

  const PingOp: byte := 0
  const PongOp: byte := 9

  /** The ping a probe sends: three bytes, opcode 0, then the index. */
  function Ping(index: uint16): (p: seq<byte>)
    ensures |p| == 3 && p[0] == PingOp && Uint16Le(p[1..]) == index
    ensures DecodeHeader(p) == Some(Header(PingOp, index))
  {
    Le16RoundTrip(index);
    assert ([PingOp] + Le16(index))[1..] == Le16(index);
    [PingOp] + Le16(index)
  }

  /** The pong a responder sends: seven header bytes, then the address. */
  function Pong(index: uint16, address: seq<byte>): (p: seq<byte>)
    ensures |p| == 7 + |address| && p[7..] == address
  {
    [PongOp] + Le16(index) + Le32(LengthField(|address|)) + address
  }

  /** The fields of a pong: opcode 9, the index, the uint32 length of the
      address and exactly the address after them. */
  lemma PongFields(index: uint16, address: seq<byte>)
    ensures var p := Pong(index, address);
      p[0] == PongOp && Uint16Le(p[1..3]) == index &&
      Uint32Le(p[3..7]) == LengthField(|address|)
  {
    var p := Pong(index, address);
    assert p[1..3] == Le16(index) && p[3..7] == Le32(LengthField(|address|));
    Le16RoundTrip(index);
    Le32RoundTrip(LengthField(|address|));
  }

  /** A pong whose address fits the 32-bit length field reads back as its
      index and its address. */
  lemma PongRoundTrip(index: uint16, address: seq<byte>)
    requires |address| < 0x1_0000_0000
    ensures DecodePong(Pong(index, address)) == Some(PongMsg(index, address))
  {
  }

  datatype Header = Header(opcode: byte, index: uint16)

  /** How the discovery loops read a request: fewer than three bytes is
      malformed; otherwise byte 0 and the little-endian index in bytes 1-2,
      with anything after them left unread. */
  function DecodeHeader(d: seq<byte>): (h: Option<Header>)
    ensures h.None? <==> |d| < 3
  {
    if |d| < 3 then None else Some(Header(d[0], Uint16Le(d[1..])))
  }

  datatype PongMsg = PongMsg(index: uint16, address: seq<byte>)

  /** How a receiver reads a pong: opcode 9, the index, a length field and
      exactly that many address bytes after it. */
  function DecodePong(d: seq<byte>): Option<PongMsg> {
    if |d| < 7 || d[0] != PongOp then None
    else if Uint32Le(d[3..7]) as int != |d| - 7 then None
    else Some(PongMsg(Uint16Le(d[1..3]), d[7..]))
  }

  /** Pong framing is exact: whatever decodes as a pong is the pong built
      from the decoded index and address, byte for byte. */
  lemma PongDecodeExact(d: seq<byte>)
    requires DecodePong(d).Some?
    ensures d == Pong(DecodePong(d).value.index, DecodePong(d).value.address)
  {
    Le16OfUint16Le(d[1..3]);
    Le32OfUint32Le(d[3..7]);
    assert d == d[..1] + d[1..3] + d[3..7] + d[7..];
  }

  /** The first three pong writes of the discovery loops: opcode 9, then the
      index through binary.LittleEndian.PutUint16. */
  method WritePongHeader(buf: ByteBuffer, index: uint16)
    modifies buf
    ensures buf.data == old(buf.data) + [PongOp] + Le16(index)
  {
    buf.WriteByte(PongOp);
    var indexBytes := Le16(index);
    buf.Write(indexBytes);
  }

  /** The last two pong writes: the uint32 length of the address, then the
      address's bytes. */
  method WriteAddress(buf: ByteBuffer, address: seq<byte>)
    modifies buf
    ensures buf.data == old(buf.data) + Le32(LengthField(|address|)) + address
  {
    var lengthBytes := Le32(LengthField(|address|));
    buf.Write(lengthBytes);
    buf.Write(address);
  }

  /** Builds a ping by appending to a fresh buffer, as every probe does. */
  method BuildPing(index: uint16) returns (p: seq<byte>)
    ensures p == Ping(index)
  {
    var buf := new ByteBuffer();
    buf.WriteByte(PingOp);
    var indexBytes := Le16(index);
    buf.Write(indexBytes);
    p := buf.Bytes();
  }

  /** Builds a pong by appending to a fresh buffer, as the relay loops do. */
  method BuildPong(index: uint16, address: seq<byte>) returns (p: seq<byte>)
    ensures p == Pong(index, address)
  {
    var buf := new ByteBuffer();
    WritePongHeader(buf, index);
    WriteAddress(buf, address);
    p := buf.Bytes();
  }
}
