/**
 * The BACnet/IP connection string of the CAS BACnet stack: six bytes, the four
 * IPv4 address octets followed by the UDP port, low byte first.
 *
 * EncodeEndpoint is what CreateConnectionString builds; DecodeDestination is the
 * address block at the top of SendMessage, including its /24 broadcast shortcut.
 */
module Codec {
  /** A C# byte. */
  newtype Byte = b: int | 0 <= b < 256

  /** The four octets of an IPv4 address, in network order. */
  type Octets = s: seq<Byte> | |s| == 4 witness [0, 0, 0, 0]

  /** IPEndPoint.Port: the constructor refuses anything outside 0..65535. */
  type Port = p: int | 0 <= p < 0x1_0000

  datatype Endpoint = Endpoint(address: Octets, port: Port)

  const ConnectionStringLength: nat := 6

  /** The C# cast (byte)port: truncation to the low eight bits. */
  function LowByte(port: Port): (b: Byte)
    ensures b as int == port % 256
  {
    (port % 256) as Byte
  }

  /** The C# cast (byte)(port >> 8): the shift, then truncation to eight bits. */
  function HighByte(port: Port): (b: Byte)
    ensures b as int == port / 256
  {
    (port / 256 % 256) as Byte
  }

  /** The two truncated bytes lose nothing: low byte plus 256 times high byte is the port. */
  lemma PortBytesRecompose(port: Port)
    ensures LowByte(port) as int + 256 * HighByte(port) as int == port
  {
  }

  /** The 6-byte connection string of an IPv4 endpoint. */
  function EncodeEndpoint(ep: Endpoint): (cs: seq<Byte>)
    ensures |cs| == ConnectionStringLength
    ensures cs[..4] == ep.address
    ensures cs[4] as int == ep.port % 256 && cs[5] as int == ep.port / 256
  {
    var portBytes := [LowByte(ep.port), HighByte(ep.port)];
    assert (ep.address + portBytes)[..4] == ep.address;
    ep.address + portBytes
  }

  /** The endpoint a connection string names. With `broadcast` set, the last octet
      is replaced by 0xFF: the directed broadcast of the /24 around the address. */
  function DecodeDestination(cs: seq<Byte>, broadcast: bool): (ep: Endpoint)
    requires |cs| >= ConnectionStringLength
    ensures ep.address[..3] == cs[..3]
    ensures ep.address[3] == if broadcast then 0xFF else cs[3]
    ensures ep.port % 256 == cs[4] as int && ep.port / 256 == cs[5] as int
  {
    var last := if broadcast then 0xFF else cs[3];
    Endpoint([cs[0], cs[1], cs[2], last], cs[4] as int + cs[5] as int * 256)
  }

  /** The /24 directed-broadcast address of an endpoint, stated on endpoints. */
  function SubnetBroadcast(ep: Endpoint): (b: Endpoint)
    ensures b.address[..3] == ep.address[..3] && b.address[3] == 0xFF && b.port == ep.port
  {
    ep.(address := ep.address[..3] + [0xFF])
  }

  /** Byte-level fill of CreateConnectionString: a fresh 6-byte array, the address
      octets copied to indices 0..3, then the port low byte and high byte. */
  method CreateConnectionString(ep: Endpoint) returns (cs: array<Byte>)
    ensures fresh(cs)
    ensures cs[..] == EncodeEndpoint(ep)
  {
    cs := new Byte[6];
    cs[0], cs[1], cs[2], cs[3] := ep.address[0], ep.address[1], ep.address[2], ep.address[3];
    cs[4] := LowByte(ep.port);
    cs[5] := HighByte(ep.port);
  }

  /** Decoding (without broadcast) what was encoded gives back the endpoint. */
  lemma DecodeEncode(ep: Endpoint)
    ensures DecodeDestination(EncodeEndpoint(ep), false) == ep
  {
  }

  /** Encoding a decoded (non-broadcast) destination gives back the first six bytes. */
  lemma EncodeDecode(cs: seq<Byte>)
    requires |cs| >= ConnectionStringLength
    ensures EncodeEndpoint(DecodeDestination(cs, false)) == cs[..ConnectionStringLength]
  {
  }

  /** A broadcast send to an encoded endpoint goes to that endpoint's /24 broadcast:
      octets 0..2 and the port are kept and the last octet is 0xFF. */
  lemma BroadcastOfEncoded(ep: Endpoint)
    ensures DecodeDestination(EncodeEndpoint(ep), true) == SubnetBroadcast(ep)
  {
  }

  /** Broadcast decoding is the non-broadcast decoding followed by the /24 substitution,
      so it ignores byte 3 of the connection string. */
  lemma BroadcastIgnoresLastOctet(cs: seq<Byte>, cs': seq<Byte>)
    requires |cs| >= ConnectionStringLength && |cs'| >= ConnectionStringLength
    requires cs[..3] == cs'[..3] && cs[4..6] == cs'[4..6]
    ensures DecodeDestination(cs, true) == DecodeDestination(cs', true)
    ensures DecodeDestination(cs, true) == SubnetBroadcast(DecodeDestination(cs, false))
  {
    assert cs[4] == cs[4..6][0] == cs'[4..6][0] == cs'[4];
    assert cs[5] == cs[4..6][1] == cs'[4..6][1] == cs'[5];
  }
}
