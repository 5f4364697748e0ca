/**
 The UDP packet and its wire format (tunshell-client/src/p2p/udp/packet.rs).

 The checksum is a function of every field but itself; which function (the program uses
 XxHash32) is a parameter.
 */
module Packet {
  import opened Wrappers
  import opened SeqNumber

  const MAX_PACKET_SIZE := 576
  const HEADER_SIZE := 19  // 1 + 4 + 4 + 4 + 2 + 4
  const MAX_PAYLOAD := 557 // MAX_PACKET_SIZE - HEADER_SIZE

  type u16 = x: int | 0 <= x < 0x1_0000
  type u8 = x: int | 0 <= x < 256

  datatype PacketType = Open | Data | Close

  datatype UdpPacket = UdpPacket(
    packetType: PacketType,
    sequenceNumber: u32,
    ackNumber: u32,
    window: u32,
    length: u16,
    checksum: u32,
    payload: seq<byte>,
    resendCount: u8)

  datatype ParseError =
    | InvalidType(b: byte)
    | BufferTooSmall(len: nat)
    | PayloadLengthMismatch(expected: nat, actual: nat)

  type Hash = (PacketType, u32, u32, u32, u16, seq<byte>) -> u32

  function TypeByte(t: PacketType): byte {
    match t
    case Open => 0
    case Data => 1
    case Close => 2
  }

  function ParseType(b: byte): Result<PacketType, ParseError> {
    match b
    case 0 => Ok(Open)
    case 1 => Ok(Data)
    case 2 => Ok(Close)
    case _ => Err(InvalidType(b))
  }

  // Big-endian fields

  function BE16(x: u16): seq<byte> { [x / 0x100, x % 0x100] }

  function BE32(x: u32): seq<byte> { BE16(x / 0x1_0000) + BE16(x % 0x1_0000) }

  function ReadBE16(b: seq<byte>, at: nat): u16
    requires at + 2 <= |b|
  {
    b[at] as int * 0x100 + b[at + 1]
  }

  function ReadBE32(b: seq<byte>, at: nat): u32
    requires at + 4 <= |b|
  {
    ReadBE16(b, at) as int * 0x1_0000 + ReadBE16(b, at + 2) as int
  }

  lemma BE16RoundTrip(x: u16, b: seq<byte>, at: nat)
    requires at + 2 <= |b|
    ensures b[at..at + 2] == BE16(x) <==> ReadBE16(b, at) == x
  {
    var c := b[at..at + 2];
    assert c[0] == b[at] && c[1] == b[at + 1];
    assert x == x / 0x100 * 0x100 + x % 0x100;
    if ReadBE16(b, at) == x {
      assert b[at] == x / 0x100 && b[at + 1] == x % 0x100;
    }
  }

  lemma BE32RoundTrip(x: u32, b: seq<byte>, at: nat)
    requires at + 4 <= |b|
    ensures b[at..at + 4] == BE32(x) <==> ReadBE32(b, at) == x
  {
    BE16RoundTrip(x / 0x1_0000, b, at);
    BE16RoundTrip(x % 0x1_0000, b, at + 2);
    var c := b[at..at + 4];
    assert c[..2] == b[at..at + 2] && c[2..] == b[at + 2..at + 4] && c == c[..2] + c[2..];
    assert x == x / 0x1_0000 * 0x1_0000 + x % 0x1_0000;
  }

  /** The wire image: seven fields in order. */
  function ToVec(p: UdpPacket): seq<byte> {
    [TypeByte(p.packetType)] + BE32(p.sequenceNumber) + BE32(p.ackNumber) + BE32(p.window)
    + BE16(p.length) + BE32(p.checksum) + p.payload
  }

  function Parse(data: seq<byte>): Result<UdpPacket, ParseError> {
    if |data| < HEADER_SIZE then Err(BufferTooSmall(|data|)) else
    match ParseType(data[0])
    case Err(e) => Err(e)
    case Ok(t) =>
      var length := ReadBE16(data, 13);
      if |data| < HEADER_SIZE + length then Err(PayloadLengthMismatch(length, |data|)) else
      Ok(UdpPacket(t, ReadBE32(data, 1), ReadBE32(data, 5), ReadBE32(data, 9), length,
                   ReadBE32(data, 15), data[HEADER_SIZE..HEADER_SIZE + length], 0))
  }

  /** Parsing what was printed gives the packet back, with the resend count forgotten and with
      any bytes after the payload ignored. */
  lemma ParseToVec(p: UdpPacket, rest: seq<byte>)
    requires p.length == |p.payload|
    ensures Parse(ToVec(p) + rest) == Ok(p.(resendCount := 0))
  {
    var b := ToVec(p) + rest;
    BE32RoundTrip(p.sequenceNumber, b, 1);
    BE32RoundTrip(p.ackNumber, b, 5);
    BE32RoundTrip(p.window, b, 9);
    BE16RoundTrip(p.length, b, 13);
    BE32RoundTrip(p.checksum, b, 15);
    assert b[1..5] == BE32(p.sequenceNumber);
    assert b[5..9] == BE32(p.ackNumber);
    assert b[9..13] == BE32(p.window);
    assert b[13..15] == BE16(p.length);
    assert b[15..19] == BE32(p.checksum);
    assert b[19..19 + p.length] == p.payload;
  }

  lemma ParsedWasPrinted(data: seq<byte>, p: UdpPacket)
    requires Parse(data) == Ok(p)
    ensures p.resendCount == 0 && p.length == |p.payload| && ToVec(p) <= data
  {
    BE32RoundTrip(p.sequenceNumber, data, 1);
    BE32RoundTrip(p.ackNumber, data, 5);
    BE32RoundTrip(p.window, data, 9);
    BE16RoundTrip(p.length, data, 13);
    BE32RoundTrip(p.checksum, data, 15);
    assert [TypeByte(p.packetType)] == data[0..1];
    hide BE16, BE32, ReadBE16, ReadBE32, Parse;
    assert ToVec(p) == data[0..1] + data[1..5] + data[5..9] + data[9..13] + data[13..15]
           + data[15..19] + data[19..19 + p.length];
    hide ToVec;
    assert data[0..1] + data[1..5] + data[5..9] + data[9..13] == data[..13];
    assert data[..13] + data[13..15] + data[15..19] + data[19..19 + p.length] == data[..19 + p.length];
  }

  /** The parser accepts exactly the printed packets followed by anything. */
  lemma ParseExact(data: seq<byte>, p: UdpPacket)
    ensures Parse(data) == Ok(p) <==>
            p.resendCount == 0 && p.length == |p.payload| && ToVec(p) <= data
  {
    hide Parse, ToVec;
    if Parse(data) == Ok(p) {
      ParsedWasPrinted(data, p);
    }
    if p.resendCount == 0 && p.length == |p.payload| && ToVec(p) <= data {
      ParseToVec(p, data[|ToVec(p)|..]);
      assert data == ToVec(p) + data[|ToVec(p)|..];
    }
  }

  /** A number as it is read from its bytes, the most significant first. */
  function Value(b: seq<byte>): nat {
    if b == [] then 0 else Value(b[..|b| - 1]) * 0x100 + b[|b| - 1] as int
  }

  lemma Value2(b: seq<byte>)
    requires |b| == 2
    ensures Value(b) == b[0] as int * 0x100 + b[1] as int
  {
    assert b[..1][..0] == [];
    assert Value(b[..1]) == 0 * 0x100 + b[0] as int;
  }

  lemma Value4(b: seq<byte>)
    requires |b| == 4
    ensures Value(b) == Value(b[..2]) * 0x1_0000 + Value(b[2..])
  {
    assert b[..3][..2] == b[..2];
    Value2(b[2..]);
    assert Value(b[..3]) == Value(b[..2]) * 0x100 + b[2] as int;
  }

  lemma BigEndian(x: u32, y: u16)
    ensures |BE32(x)| == 4 && Value(BE32(x)) == x && |BE16(y)| == 2 && Value(BE16(y)) == y
  {
    Value2(BE16(y));
    Value2(BE16(x / 0x1_0000));
    Value2(BE16(x % 0x1_0000));
    Value4(BE32(x));
    assert BE32(x)[..2] == BE16(x / 0x1_0000) && BE32(x)[2..] == BE16(x % 0x1_0000);
  }

  /** Where every field is on the wire: the type, then five numbers with the most significant byte first,
      then the payload. */
  lemma FieldsOnTheWire(p: UdpPacket)
    ensures var d := ToVec(p);
            && |d| == 19 + |p.payload|
            && d[0] == (match p.packetType case Open => 0 case Data => 1 case Close => 2)
            && Value(d[1..5]) == p.sequenceNumber && Value(d[5..9]) == p.ackNumber && Value(d[9..13]) == p.window
            && Value(d[13..15]) == p.length && Value(d[15..19]) == p.checksum && d[19..] == p.payload
  {
    BigEndian(p.sequenceNumber, p.length);
    BigEndian(p.ackNumber, 0);
    BigEndian(p.window, 0);
    BigEndian(p.checksum, 0);
    hide BE32, BE16, Value;
    var d := ToVec(p);
    assert d[1..5] == BE32(p.sequenceNumber) && d[5..9] == BE32(p.ackNumber) && d[9..13] == BE32(p.window);
    assert d[13..15] == BE16(p.length) && d[15..19] == BE32(p.checksum) && d[19..] == p.payload;
  }

  // Construction

  function Checksum(h: Hash, p: UdpPacket): u32 {
    h(p.packetType, p.sequenceNumber, p.ackNumber, p.window, p.length, p.payload)
  }

  predicate ChecksumValid(h: Hash, p: UdpPacket) {
    p.checksum == Checksum(h, p)
  }

  function Min(a: nat, b: nat): nat { if a <= b then a else b }

  function Create(h: Hash, t: PacketType, seqno: u32, ack: u32, window: u32, buff: seq<byte>): (p: UdpPacket)
    ensures ChecksumValid(h, p) && p.length == |p.payload| && p.resendCount == 0
    ensures p.payload <= buff && (p.payload == buff || |p.payload| == MAX_PAYLOAD) && |p.payload| <= MAX_PAYLOAD
  {
    var length := Min(|buff|, MAX_PAYLOAD);
    var p := UdpPacket(t, seqno, ack, window, length, 0, buff[..length], 0);
    p.(checksum := Checksum(h, p))
  }

  function EndSeq(p: UdpPacket): u32 {
    Add(p.sequenceNumber, p.length)
  }

  function Len(p: UdpPacket): nat {
    HEADER_SIZE + |p.payload|
  }

  /** As in the code: the raw 32-bit values are compared, without wrapping. */
  predicate Overlaps(p: UdpPacket, o: UdpPacket) {
    p.sequenceNumber <= EndSeq(o) && o.sequenceNumber <= EndSeq(p)
  }

  // The step-by-step forms of the wire format

  method PacketToVec(p: UdpPacket) returns (buff: seq<byte>)
    ensures buff == ToVec(p)
  {
    buff := [TypeByte(p.packetType)];
    buff := buff + BE32(p.sequenceNumber);
    buff := buff + BE32(p.ackNumber);
    buff := buff + BE32(p.window);
    buff := buff + BE16(p.length);
    buff := buff + BE32(p.checksum);
    buff := buff + p.payload;
  }

  method ParsePacket(data: seq<byte>) returns (r: Result<UdpPacket, ParseError>)
    ensures forall p :: r == Ok(p) <==> p.resendCount == 0 && p.length == |p.payload| && ToVec(p) <= data
    ensures r == Parse(data)
  {
    forall p ensures Parse(data) == Ok(p) <==> p.resendCount == 0 && p.length == |p.payload| && ToVec(p) <= data {
      ParseExact(data, p);
    }
    if |data| < HEADER_SIZE {
      return Err(BufferTooSmall(|data|));
    }
    var position := 0;
    var t := ParseType(data[position]);
    if t.Err? {
      return Err(t.error);
    }
    position := position + 1;
    var sequenceNumber := ReadBE32(data, position);
    position := position + 4;
    var ackNumber := ReadBE32(data, position);
    position := position + 4;
    var window := ReadBE32(data, position);
    position := position + 4;
    var length := ReadBE16(data, position);
    position := position + 2;
    var checksum := ReadBE32(data, position);
    position := position + 4;
    var payloadEnd := position as int + length as int;
    if |data| < payloadEnd {
      return Err(PayloadLengthMismatch(length, |data|));
    }
    return Ok(UdpPacket(t.value, sequenceNumber, ackNumber, window, length, checksum, data[position..payloadEnd], 0));
  }
}
