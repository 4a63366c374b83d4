/** Fixed-width integers, their little-endian byte encodings (Go's
    encoding/binary.LittleEndian), decimal text (fmt's %v on an integer) and
    the textual `host:port` form of an announced address. */
module Bytes {

  newtype byte = x: int | 0 <= x < 0x100
  newtype uint16 = x: int | 0 <= x < 0x1_0000
  newtype uint32 = x: int | 0 <= x < 0x1_0000_0000

  datatype Option<+T> = None | Some(value: T)

  /** binary.LittleEndian.PutUint16 into a fresh two-byte slice: low byte first. */
  function Le16(n: uint16): (r: seq<byte>)
    ensures |r| == 2 && r[0] as int == n as int % 0x100 && r[1] as int == n as int / 0x100
  {
    [(n as int % 0x100) as byte, (n as int / 0x100) as byte]
  }

  /** binary.LittleEndian.Uint16: reads the first two bytes, ignores the rest. */
  function Uint16Le(b: seq<byte>): uint16
    requires |b| >= 2
  {
    (b[0] as int + 0x100 * b[1] as int) as uint16
  }

  /** Two bytes written by PutUint16 read back as the value written. */
  lemma Le16RoundTrip(n: uint16)
    ensures Uint16Le(Le16(n)) == n
  {
  }

  /** Encoding the value read from two bytes gives back exactly those bytes. */
  lemma Le16OfUint16Le(b: seq<byte>)
    requires |b| >= 2
    ensures Le16(Uint16Le(b)) == b[..2]
  {
  }

  /** binary.LittleEndian.PutUint32 into a fresh four-byte slice: least
      significant byte first. */
  function Le32(n: uint32): (r: seq<byte>)
    ensures |r| == 4 && r[0] as int == n as int % 0x100 && r[3] as int == n as int / 0x100_0000
  {
    var x := n as int;
    var q1 := x / 0x100;
    var q2 := q1 / 0x100;
    var q3 := q2 / 0x100;
    [(x % 0x100) as byte, (q1 % 0x100) as byte, (q2 % 0x100) as byte, q3 as byte]
  }

  /** binary.LittleEndian.Uint32: reads the first four bytes. */
  function Uint32Le(b: seq<byte>): uint32
    requires |b| >= 4
  {
    (b[0] as int + 0x100 * b[1] as int + 0x1_0000 * b[2] as int
      + 0x100_0000 * b[3] as int) as uint32
  }

  /** Splitting off the low byte of a + 256 * q gives back a and q. */
  lemma SplitLowByte(a: int, q: int)
    requires 0 <= a < 0x100
    ensures (a + 0x100 * q) % 0x100 == a && (a + 0x100 * q) / 0x100 == q
  {
  }

  /** Four bytes written by PutUint32 read back as the value written. */
  lemma Le32RoundTrip(n: uint32)
    ensures Uint32Le(Le32(n)) == n
  {
    var x := n as int;
    var q1 := x / 0x100;
    var q2 := q1 / 0x100;
    var q3 := q2 / 0x100;
    assert x == (x % 0x100) + 0x100 * (q1 % 0x100) + 0x1_0000 * (q2 % 0x100) + 0x100_0000 * q3;
  }

  /** Encoding the value read from four bytes gives back exactly those bytes. */
  lemma Le32OfUint32Le(b: seq<byte>)
    requires |b| >= 4
    ensures Le32(Uint32Le(b)) == b[..4]
  {
    var q2 := b[2] as int + 0x100 * b[3] as int;
    var q1 := b[1] as int + 0x100 * q2;
    SplitLowByte(b[0] as int, q1);
    SplitLowByte(b[1] as int, q2);
    SplitLowByte(b[2] as int, b[3] as int);
    assert Uint32Le(b) as int == b[0] as int + 0x100 * q1;
  }

  /** Go's uint32(len(s)): the length truncated to 32 bits. */
  function LengthField(n: nat): (r: uint32)
    ensures n < 0x1_0000_0000 ==> r as int == n
  {
    (n % 0x1_0000_0000) as uint32
  }

  const Zero: byte := 48   // '0'
  const Colon: byte := 58  // ':'

  predicate IsDigit(c: byte) {
    Zero <= c < Zero + 10
  }

  predicate AllDigits(s: seq<byte>) {
    forall i :: 0 <= i < |s| ==> IsDigit(s[i])
  }

  /** The ASCII digit for d. */
  function Digit(d: nat): (c: byte)
    requires d < 10
    ensures IsDigit(c) && (c - Zero) as int == d
  {
    (48 + d) as byte
  }

  /** fmt's %v on an unsigned integer: decimal digits, no sign, no leading zero. */
  function Decimal(n: nat): (r: seq<byte>)
    ensures 1 <= |r| && AllDigits(r)
    ensures r[0] == Zero ==> n == 0
    decreases n
  {
    if n < 10 then [Digit(n)] else Decimal(n / 10) + [Digit(n % 10)]
  }

  /** Reads a run of ASCII digits as a decimal number (a reference reader). */
  function ParseDecimal(s: seq<byte>): nat
    requires AllDigits(s)
    decreases |s|
  {
    if s == [] then 0
    else 10 * ParseDecimal(s[..|s| - 1]) + (s[|s| - 1] - Zero) as int
  }

  /** Decimal text reads back as the number it was written from. */
  lemma {:induction false} DecimalRoundTrip(n: nat)
    ensures ParseDecimal(Decimal(n)) == n
    decreases n
  {
    var r := Decimal(n);
    if n >= 10 {
      DecimalRoundTrip(n / 10);
      assert r[..|r| - 1] == Decimal(n / 10);
    }
  }

  /** Go's []byte(string) of ASCII text. */
  function Ascii(s: string): (r: seq<byte>)
    requires forall i :: 0 <= i < |s| ==> s[i] as int < 0x80
    ensures |r| == |s| && forall i :: 0 <= i < |s| ==> r[i] as int == s[i] as int
  {
    seq(|s|, i requires 0 <= i < |s| => s[i] as int as byte)
  }

  /** fmt.Sprintf("%v:%v", host, port): the host's text, a colon, the port in decimal. */
  function HostPort(host: seq<byte>, port: nat): (r: seq<byte>)
    ensures |r| == |host| + 1 + |Decimal(port)|
    ensures r[..|host|] == host && r[|host|] == Colon
  {
    host + [Colon] + Decimal(port)
  }

  /** Index of the last occurrence of c in s, or -1 when there is none. */
  function LastIndexOf(s: seq<byte>, c: byte): (r: int)
    ensures -1 <= r < |s|
    ensures r >= 0 ==> s[r] == c
    ensures forall i :: r < i < |s| ==> s[i] != c
    decreases |s|
  {
    if s == [] then -1
    else if s[|s| - 1] == c then |s| - 1
    else LastIndexOf(s[..|s| - 1], c)
  }

  datatype HostAndPort = HostAndPort(host: seq<byte>, port: nat)

  /** How a receiver reads an announced address: the text after the last
      colon is the port, everything before it the host (an IPv6 host may
      itself hold colons). */
  function SplitHostPort(a: seq<byte>): Option<HostAndPort> {
    var k := LastIndexOf(a, Colon);
    if k < 0 || k == |a| - 1 || !AllDigits(a[k + 1..]) then None
    else Some(HostAndPort(a[..k], ParseDecimal(a[k + 1..])))
  }

  /** Every formatted address splits back into its host and its port,
      whatever colons the host text holds. */
  lemma AddressRoundTrip(host: seq<byte>, port: nat)
    ensures SplitHostPort(HostPort(host, port)) == Some(HostAndPort(host, port))
  {
    var a := HostPort(host, port);
    var d := Decimal(port);
    var k := LastIndexOf(a, Colon);
    assert a[|host|] == Colon;
    forall i | |host| < i < |a| ensures a[i] != Colon {
      assert a[i] == d[i - |host| - 1];
    }
    assert k == |host|;
    assert a[k + 1..] == d;
    DecimalRoundTrip(port);
  }
}
