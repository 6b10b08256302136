/**
 * The two transport callbacks the CAS BACnet stack calls on every tick:
 * SendMessage (a frame to put on the wire) and RecvMessage (a non-blocking poll
 * of the UDP socket). The socket itself is not modelled: what UdpClient.Send and
 * UdpClient.Available/Receive did is an input, and what the callback hands to the
 * socket or writes into the stack's buffers is the result.
 */
module Transport {
  import opened Codec
  import opened Optional

  /** A UDP datagram and the endpoint it goes to or came from. */
  datatype Datagram = Datagram(payload: seq<Byte>, peer: Endpoint)

  /** What SendMessage did: the value it returned to the stack, and the datagram it
      handed to UdpClient.Send, if it got that far. */
  datatype SendOutcome = SendOutcome(returned: nat, attempted: Option<Datagram>)

  /** Is a send request well formed enough to reach the socket? */
  predicate SendAccepted(message: seq<Byte>, connectionString: seq<Byte>)
  {
    |connectionString| >= ConnectionStringLength && |message| > 0
  }

  /**
   * SendMessage. `message` is the messageLength bytes the stack passes (a UInt16
   * count), `connectionString` the connectionStringLength bytes (a byte count), and
   * `socketAccepts` tells whether UdpClient.Send returned normally or threw.
   */
  function SendMessage(message: seq<Byte>, connectionString: seq<Byte>, broadcast: bool,
                       socketAccepts: bool): (r: SendOutcome)
    requires |message| < 0x1_0000 && |connectionString| < 0x100
    ensures !SendAccepted(message, connectionString) ==> r == SendOutcome(0, None)
    ensures r.attempted.Some? <==> SendAccepted(message, connectionString)
    ensures r.attempted.Some? ==>
              r.attempted.value.payload == message &&
              r.attempted.value.peer == DecodeDestination(connectionString, broadcast)
    ensures r.returned > 0 <==> SendAccepted(message, connectionString) && socketAccepts
    ensures r.returned > 0 ==> r.returned == |message|
  {
    if |connectionString| < 6 || |message| <= 0 then
      SendOutcome(0, None)
    else
      var destination := DecodeDestination(connectionString, broadcast);
      var sendBytes := message;
      if socketAccepts then
        SendOutcome(|sendBytes|, Some(Datagram(sendBytes, destination)))
      else
        SendOutcome(0, Some(Datagram(sendBytes, destination)))
  }

  /** What the socket offers when RecvMessage polls it. */
  datatype Inbound =
    | NothingAvailable                                  // Available == 0
    | Arrived(payload: seq<Byte>, sender: Endpoint)     // Receive returned a datagram
    | ReceiveFailed                                     // Available or Receive threw

  /** What RecvMessage writes through its out-pointers. */
  datatype Received = Received(message: seq<Byte>, connectionString: seq<Byte>,
                               connectionStringLength: nat)

  /** What RecvMessage did: the length it returned and the buffers it filled, if any. */
  datatype RecvOutcome = RecvOutcome(returned: nat, written: Option<Received>)

  /** BitConverter.GetBytes of a UInt16 on a little-endian machine: the byte at the
      lower address first. */
  function LittleEndianUInt16(v: Port): (bytes: seq<Byte>)
    ensures |bytes| == 2 && bytes[0] as int + 256 * bytes[1] as int == v
  {
    [(v % 256) as Byte, (v / 256) as Byte]
  }

  /**
   * RecvMessage. The source copies the whole datagram into the stack's buffer and
   * always writes six connection-string bytes, without comparing against
   * maxMessageLength or maxConnectionStringLength; the requires state those
   * unchecked assumptions for the case where a datagram arrives.
   */
  function RecvMessage(inbound: Inbound, maxMessageLength: nat,
                       maxConnectionStringLength: nat): (r: RecvOutcome)
    requires maxMessageLength < 0x1_0000 && maxConnectionStringLength < 0x100
    requires inbound.Arrived? ==>
               |inbound.payload| <= maxMessageLength &&
               maxConnectionStringLength >= ConnectionStringLength
    ensures r.written.Some? <==> inbound.Arrived?
    ensures r.returned == if inbound.Arrived? then |inbound.payload| else 0
    ensures inbound.Arrived? ==>
              r.written.value.message == inbound.payload &&
              r.written.value.connectionStringLength == ConnectionStringLength &&
              r.written.value.connectionString == EncodeEndpoint(inbound.sender)
  {
    match inbound
    case Arrived(receiveBytes, remote) =>
      var connectionString := remote.address + LittleEndianUInt16(remote.port);
      assert connectionString == EncodeEndpoint(remote);
      RecvOutcome(|receiveBytes|, Some(Received(receiveBytes, connectionString, 6)))
    case _ =>
      RecvOutcome(0, None)
  }

  /** A datagram received and then answered through the send callback (no broadcast)
      goes back to the endpoint it came from. */
  lemma ReplyReachesSender(payload: seq<Byte>, sender: Endpoint, maxMessageLength: nat,
                           reply: seq<Byte>)
    requires |payload| <= maxMessageLength < 0x1_0000
    requires 0 < |reply| < 0x1_0000
    ensures var received := RecvMessage(Arrived(payload, sender), maxMessageLength, 6).written.value;
            SendMessage(reply, received.connectionString, false, true) ==
              SendOutcome(|reply|, Some(Datagram(reply, sender)))
  {
    DecodeEncode(sender);
  }
}
