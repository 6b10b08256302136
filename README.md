# BACnet client example: connection strings, transport callbacks and keystroke menu

A Dafny model of the self-contained logic in the CAS BACnet Stack's C# client example
(`BACnetClientExampleCSharp/Program.cs`). The client registers callbacks with a native
BACnet stack, polls the keyboard once per main-loop iteration, and turns keys into
requests to the stack. The model covers four parts of that file:

- **Connection-string codec** (`codec.dfy`, module `Codec`). The stack names a BACnet/IP
  peer by a 6-byte connection string: the four IPv4 octets, then the UDP port, low byte
  first. `EncodeEndpoint` is what `CreateConnectionString` produces. The method
  `CreateConnectionString` fills a fresh 6-byte array the way the source does.
  `DecodeDestination` is the address block at the top of `SendMessage`. When the stack
  asks for a broadcast, it replaces the last octet with 0xFF. That gives the directed
  broadcast of the /24 around the peer, a fixed simplification, kept as written. The
  lemmas prove the round trips both ways and the broadcast layout.
- **Transport callbacks** (`transport.dfy`, module `Transport`). `SendMessage` and
  `RecvMessage` are functions. Their inputs include what the UDP socket did: whether
  `Send` returned or threw, and whether a datagram was available, arrived or failed.
  Their results are what the callback returned and what it handed to the socket or
  wrote into the stack's buffers.
- **Keystroke menu** (`dispatcher.dfy`, module `Dispatcher`). `BACnetClient` is a
  class with the field `subOption`: `NoName` is the top menu, `D` the WhoIs submenu.
  It also has a ghost log of the stack calls made so far. `CheckUserInput`,
  `CheckUserSubOption` and the main loop `Run` are methods. Their postconditions tie
  them to the functions `Poll` (one keyboard poll) and `Session` (the loop over a
  script of polls). The lemmas about those functions say:
  - when the loop quits;
  - which calls each key makes;
  - that every Build call is immediately followed by its Send, across a whole session.
- **Unsigned property callback** (`property_callbacks.dfy`, module `PropertyCallbacks`).
  `CallbackGetUnsignedInteger` is a total lookup that answers only the device's
  APDU timeout and number of APDU retries.

`bacnet.dfy` holds the BACnet enumeration values the client uses. They are numbered as
in ANSI/ASHRAE Standard 135: object types, property identifiers, and the application
tags of clause 20.2.1.4, which the stack uses as data-type codes. `CASBACnetStackAdapter`,
which defines these constants for the C# code, is not part of this model. `optional.dfy`
holds the `Option` type.

Bytes are a `newtype Byte` over 0..255. Ports are 0..65535, the range `IPEndPoint`
accepts. The C# casts `(byte)port` and `(byte)(port >> 8)` are written out as explicit
truncations (`LowByte`, `HighByte`).

Three behaviours of the code are easy to misread, and the model follows the code in each:
- `RecvMessage` never writes its `networkType` out-parameter (`Program.cs:193-233`). No
  network-type tag is modelled on the receive path.
- After L, W, R or G in the WhoIs submenu, `subOption` stays `D`, so the user remains in
  the submenu. Only Q returns to the top menu (`Program.cs:457-479`).
- `RecvMessage` copies the whole datagram and always writes six connection-string bytes.
  It does not compare against `maxMessageLength` or `maxConnectionStringLength`
  (`Program.cs:205-210`). The model keeps both unchecked assumptions as preconditions
  of the arrival case.

## Model

| member | source | states |
|---|---|---|
| Codec.EncodeEndpoint | BACnetClientExampleCSharp/Program.cs:236-243 | the connection string is exactly 6 bytes; bytes 0-3 are the address octets; byte 4 is port mod 256 and byte 5 is port div 256 |
| Codec.PortBytesRecompose | BACnetClientExampleCSharp/Program.cs:240-241 | the truncating casts `(byte)port` and `(byte)(port >> 8)` lose nothing: low byte plus 256 times high byte is the port, for every port in 0..65535 |
| Codec.HighByte | BACnetClientExampleCSharp/Program.cs:241 | `(byte)(port >> 8)` is the port's high byte, for any port in 0..65535 |
| Codec.CreateConnectionString | BACnetClientExampleCSharp/Program.cs:236-243 | returns a fresh array whose contents are the encoding of the endpoint |
| Codec.DecodeDestination | BACnetClientExampleCSharp/Program.cs:150-161 | octets 0-2 come from bytes 0-2; octet 3 is 0xFF when broadcasting, byte 3 otherwise; the port's low byte is byte 4 and its high byte is byte 5 |
| Codec.SubnetBroadcast | BACnetClientExampleCSharp/Program.cs:152-156 | the /24 broadcast of an endpoint keeps octets 0-2 and the port and sets the last octet to 0xFF |
| Codec.DecodeEncode | BACnetClientExampleCSharp/Program.cs:159-161 | decoding an encoded endpoint without broadcast gives back that address and port |
| Codec.EncodeDecode | BACnetClientExampleCSharp/Program.cs:159-161 | encoding a decoded (non-broadcast) destination gives back the first six bytes of the connection string |
| Codec.BroadcastOfEncoded | BACnetClientExampleCSharp/Program.cs:152-161 | a broadcast decode of an encoded endpoint is its /24 broadcast: octets 0-2 and the port unchanged, last octet 0xFF |
| Codec.BroadcastIgnoresLastOctet | BACnetClientExampleCSharp/Program.cs:152-156 | a broadcast decode does not depend on byte 3, and equals the non-broadcast decode with the /24 substitution |
| Transport.SendMessage | BACnetClientExampleCSharp/Program.cs:143-190 | a connection string under 6 bytes or an empty message returns 0 and sends nothing; otherwise the message goes to the decoded destination; the return is the message length if the socket accepted it and 0 if it threw |
| Transport.LittleEndianUInt16 | BACnetClientExampleCSharp/Program.cs:202 | the two port bytes, low byte first, recompose the port |
| Transport.RecvMessage | BACnetClientExampleCSharp/Program.cs:193-233 | writes only when a datagram arrived; returns its length (0 when nothing is available or the receive failed); the message written is the datagram, and the connection string written is 6 bytes equal to the encoding of the sender |
| Transport.ReplyReachesSender | BACnetClientExampleCSharp/Program.cs:159-210 | a non-broadcast send to the connection string the receive path wrote goes back to the sender's address and port |
| PropertyCallbacks.CallbackGetUnsignedInteger | BACnetClientExampleCSharp/Program.cs:633-650 | answers exactly for the device object with APDU-timeout (3000) or number-of-APDU-retries (3); everything else is unanswered, with the value left unwritten |
| PropertyCallbacks.LookupIgnoresInstanceAndIndex | BACnetClientExampleCSharp/Program.cs:637-648 | the answer depends only on object type and property identifier |
| Dispatcher.ServerConnectionStringBytes | BACnetClientExampleCSharp/Program.cs:270 | the menu's connection string for 192.168.1.26:47808 is the bytes 192,168,1,26,0xC0,0xBA; it decodes back to that endpoint, and with broadcast to 192.168.1.255 |
| Dispatcher.ReadMultipleEntries | BACnetClientExampleCSharp/Program.cs:321-346 | exactly 3 read entries, for analog input, binary input and multi-state input; only the third has non-zero flags (0x01) and a non-zero array index (5) |
| Dispatcher.WriteMultipleEntries | BACnetClientExampleCSharp/Program.cs:354-388 | exactly 3 write entries, for analog output, binary output and multi-state output; only the third has non-zero flags (0x01 with 0x02) and non-zero priority (8) |
| Dispatcher.TopMenuReaction | BACnetClientExampleCSharp/Program.cs:269-433 | in the top menu, a key stops the loop iff it is Q; D and only D enters the WhoIs submenu; a key makes stack calls iff it is one of C, F, R, A, W, M, E, X |
| Dispatcher.TopMenuRequests | BACnetClientExampleCSharp/Program.cs:287-392 | R and A make a ReadProperty Build followed by its Send, W a WriteProperty Build followed by its Send; C sends a SubscribeCOV, F a RegisterForeignDevice, M a ReadProperty Multiple and E a WriteProperty Multiple, each addressed |
| Dispatcher.TopMenuBuildsPaired | BACnetClientExampleCSharp/Program.cs:297-316 | no top-menu key leaves a Build without its Send or a Send without its Build |
| Dispatcher.TopMenuDestinations | BACnetClientExampleCSharp/Program.cs:270-392 | every request of a key other than the debug key X is addressed with the server's connection string |
| Dispatcher.TopMenuRequestParameters | BACnetClientExampleCSharp/Program.cs:273-391 | F registers as a foreign device with time-to-live 300; C subscribes (process 500, unconfirmed, lifetime 300) to analog input 0; R reads present-value of analog input 0; A reads the all property of device 389999; W writes the real "99.6" to present-value of analog output 1 at priority 8; M and E send the batched entries |
| Dispatcher.WhoIsRequests | BACnetClientExampleCSharp/Program.cs:460-475 | L sends a WhoIs to network 0; W sends one limited to 389900..389999; R sends one to network 7; G sends one to network 0xFFFF; all are broadcast to the server's connection string |
| Dispatcher.SubOptionReaction | BACnetClientExampleCSharp/Program.cs:450-495 | the submenu never stops the loop; only Q returns to the top menu; L, W, R and G each send exactly one broadcast WhoIs, and every other key sends nothing |
| Dispatcher.Poll | BACnetClientExampleCSharp/Program.cs:254-268 | with no key available nothing changes; the loop stops iff Q is pressed in the top menu; the state is always the top menu or the submenu |
| Dispatcher.PollBuildsPaired | BACnetClientExampleCSharp/Program.cs:297-316 | within one poll every Build call is immediately followed by its Send, and every such Send immediately follows its Build |
| Dispatcher.Session | BACnetClientExampleCSharp/Program.cs:122-132 | the loop runs every poll of the script unless it quits, and the state stays the top menu or the submenu |
| Dispatcher.SessionStopsAtQuit | BACnetClientExampleCSharp/Program.cs:127-131 | once the loop has quit, later polls change nothing |
| Dispatcher.SessionPrefix | BACnetClientExampleCSharp/Program.cs:122-132 | the first n iterations depend only on the first n polls |
| Dispatcher.QuitOnlyOnTopMenuQ | BACnetClientExampleCSharp/Program.cs:127-131 | when the loop quits, its last poll was Q pressed in the top menu while the loop was running |
| Dispatcher.TopMenuQQuits | BACnetClientExampleCSharp/Program.cs:422-424 | Q pressed in the top menu while the loop runs ends the loop at that iteration, whatever came before |
| Dispatcher.SessionBuildsPaired | BACnetClientExampleCSharp/Program.cs:297-316 | across a whole session, no Build call is ever separated from its Send |
| Dispatcher.BACnetClient.constructor | BACnetClientExampleCSharp/Program.cs:52 | a new client starts in the top menu with no requests made |
| Dispatcher.BACnetClient.CheckUserSubOption | BACnetClientExampleCSharp/Program.cs:450-495 | the new subOption and the calls appended to the log are those of the submenu's answer to the key |
| Dispatcher.BACnetClient.CheckUserInput | BACnetClientExampleCSharp/Program.cs:254-434 | the return value, the new subOption and the calls appended to the log are those of one poll |
| Dispatcher.BACnetClient.Run | BACnetClientExampleCSharp/Program.cs:118-132 | after the loop, the quit flag, the iteration count, subOption and the request log are those of the session over the script of polls |

## Left out

- The UDP socket (`UdpClient` construction, `Available`, `Receive`, `Send`) is I/O. Its
  outcomes are inputs: `socketAccepts` for `SendMessage`, `Inbound` for `RecvMessage`.
  Binding port 47808 at start-up, and the fatal failure if that is impossible, are not
  modelled.
- The native stack calls are foreign code. `Loop` and the `Build*`/`Send*` calls appear
  only as entries of the ghost request log; `Loop` is logged as `StackLoop` once per
  iteration. The start-up calls (callback and hook registration, `AddDevice`,
  `SetServiceEnabled`), `DecodeAsXML` and the version queries are not modelled.
- The requests do not record the network-type argument (always IP) or the null
  destination-address arguments.
- `CallbackGetSystemTime` depends on the wall clock and on floating-point seconds.
- The observer hooks `CallbackHookIAm` through `CallbackHookPropertyUInt` only print, and
  some take `float`/`double`.
- `PointerData` pins an array and lets the pointer escape its `fixed` scope. The model
  passes the connection-string bytes by value.
- Console output and the help texts are not modelled, nor is the unused private
  `ReadProperty`.
- IPv6 endpoints are not modelled: an `Endpoint` is always IPv4. For a 16-byte
  address, `CreateConnectionString` would throw, and `RecvMessage` would copy only the
  first four address bytes.
- Exceptions other than a socket send or receive failure are not modelled (for example,
  from `Marshal`).
- `BitConverter.GetBytes` is taken to be little-endian, the byte order of every
  platform the example targets.
- Dispatcher.BACnetClient.Run: the real loop reads the keyboard forever. The model runs
  it over a finite script of polls, so a session may also end because the script runs
  out.
- The outer `default` of `CheckUserSubOption` can only be reached with a `subOption`
  other than `D`, which never happens. It is modelled as a no-op that the class
  invariant rules out.
