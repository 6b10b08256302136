/**
 * The keystroke menu of the BACnet client: CheckUserInput (the top menu) and
 * CheckUserSubOption (the WhoIs submenu), driven once per iteration of the main
 * loop in Run. Every CASBACnetStackAdapter call a key triggers is recorded as a
 * Request appended to the client's request log; the stack's own behaviour is not
 * modelled.
 */
module Dispatcher {
  import opened Codec
  import opened Bacnet
  import opened Optional

  /** The System.ConsoleKey values the client tells apart; Other stands for every other key. */
  datatype ConsoleKey = A | C | D | E | F | G | L | M | Q | R | W | X | NoName | Other(code: nat)

  /** Fixed settings of the client. */
  const ServerAddress: Octets := [192, 168, 1, 26]
  const DebugPeerAddress: Octets := [192, 168, 1, 111]
  const BacnetPort: Port := 47808
  const TimeToLive: nat := 60 * 5
  const WhoIsLowLimit: nat := 389900
  const WhoIsHighLimit: nat := 389999
  const LocalNetwork: nat := 0
  const RemoteNetwork: nat := 7
  const GlobalNetwork: nat := 0xFFFF
  const SubscribeProcessIdentifier: nat := 500
  const WritePriority: nat := 8

  function ServerEndpoint(): Endpoint { Endpoint(ServerAddress, BacnetPort) }

  /** The connection string every menu request is addressed with. */
  function ServerConnectionString(): seq<Byte>
  {
    EncodeEndpoint(ServerEndpoint())
  }

  /** The server's connection string byte by byte (47808 is 0xBAC0, low byte first),
      and the destination SendMessage decodes from it. */
  lemma ServerConnectionStringBytes()
    ensures ServerConnectionString() == [192, 168, 1, 26, 0xC0, 0xBA]
    ensures DecodeDestination(ServerConnectionString(), false) == ServerEndpoint()
    ensures DecodeDestination(ServerConnectionString(), true).address == [192, 168, 1, 0xFF]
  {
  }

  /** One entry of a ReadPropertyMultiple-style batch (the stack's ReadPropertyAsync). */
  datatype ReadPropertyAsync = ReadPropertyAsync(flags: bv8, objectInstance: nat, objectType: nat,
                                                 propertyIdentifier: nat, propertyArrayIndex: nat)

  /** One entry of a WritePropertyMultiple-style batch (the stack's WritePropertyAsync). */
  datatype WritePropertyAsync = WritePropertyAsync(flags: bv8, objectInstance: nat, objectType: nat,
                                                   propertyIdentifier: nat, propertyArrayIndex: nat,
                                                   dataType: nat, priority: nat, valueAsString: string)

  const UseArrayIndexFlag: bv8 := 0x01
  const UsePriorityFlag: bv8 := 0x02

  /** A call into the stack. Broadcast is true in every WhoIs the client sends. */
  datatype Request =
    | StackLoop
    | SendWhoIs(connectionString: seq<Byte>, broadcast: bool, destinationNetwork: nat)
    | SendWhoIsWithLimits(lowLimit: nat, highLimit: nat, connectionString: seq<Byte>,
                          broadcast: bool, destinationNetwork: nat)
    | SendRegisterForeignDevice(timeToLive: nat, connectionString: seq<Byte>)
    | SendSubscribeCOV(processIdentifier: nat, objectType: nat, objectInstance: nat,
                       confirmed: bool, lifetime: nat, connectionString: seq<Byte>)
    | BuildReadProperty(objectType: nat, objectInstance: nat, propertyIdentifier: nat,
                        useArrayIndex: bool, arrayIndex: nat)
    | SendReadProperty(connectionString: seq<Byte>)
    | BuildWriteProperty(dataType: nat, value: string, objectType: nat, objectInstance: nat,
                         propertyIdentifier: nat, useArrayIndex: bool, arrayIndex: nat,
                         usePriority: bool, priority: nat)
    | SendWriteProperty(connectionString: seq<Byte>)
    | SendReadPropertyAsync(connectionString: seq<Byte>, readEntries: seq<ReadPropertyAsync>)
    | SendWritePropertyAsync(connectionString: seq<Byte>, writeEntries: seq<WritePropertyAsync>)

  predicate Addressed(q: Request)
  {
    !(q.StackLoop? || q.BuildReadProperty? || q.BuildWriteProperty?)
  }

  predicate IsBuild(q: Request) { q.BuildReadProperty? || q.BuildWriteProperty? }

  /** A send that transmits the request record a Build call filled in. */
  predicate IsBuiltSend(q: Request) { q.SendReadProperty? || q.SendWriteProperty? }

  predicate Completes(build: Request, send: Request)
  {
    (build.BuildReadProperty? && send.SendReadProperty?) ||
    (build.BuildWriteProperty? && send.SendWriteProperty?)
  }

  /** Every Build is immediately followed by its Send, and every such Send immediately
      follows its Build. */
  predicate BuildsPaired(log: seq<Request>)
  {
    (forall i :: 0 <= i < |log| && IsBuild(log[i]) ==> i + 1 < |log| && Completes(log[i], log[i + 1])) &&
    (forall i :: 0 <= i < |log| && IsBuiltSend(log[i]) ==> 0 < i && Completes(log[i - 1], log[i]))
  }

  /** The three entries key M sends. */
  function ReadMultipleEntries(): (r: seq<ReadPropertyAsync>)
    ensures |r| == 3
    ensures r[0].objectType == ObjectTypeAnalogInput && r[1].objectType == ObjectTypeBinaryInput &&
            r[2].objectType == ObjectTypeMultiStateInput
    ensures forall i :: 0 <= i < 3 ==> (r[i].flags != 0 <==> i == 2)
    ensures forall i :: 0 <= i < 3 ==> (r[i].propertyArrayIndex != 0 <==> i == 2)
    ensures r[2].flags == UseArrayIndexFlag && r[2].propertyArrayIndex == 5
    ensures forall i :: 0 <= i < 3 ==> r[i].propertyIdentifier == PropertyIdentifierPresentValue
  {
    [ ReadPropertyAsync(0x00, 0, ObjectTypeAnalogInput, PropertyIdentifierPresentValue, 0),
      ReadPropertyAsync(0x00, 3, ObjectTypeBinaryInput, PropertyIdentifierPresentValue, 0),
      ReadPropertyAsync(UseArrayIndexFlag, 13, ObjectTypeMultiStateInput, PropertyIdentifierPresentValue, 5) ]
  }

  /** The three entries key E sends. The third sets the array-index flag although its
      array index is 0. */
  function WriteMultipleEntries(): (r: seq<WritePropertyAsync>)
    ensures |r| == 3
    ensures r[0].objectType == ObjectTypeAnalogOutput && r[1].objectType == ObjectTypeBinaryOutput &&
            r[2].objectType == ObjectTypeMultiStateOutput
    ensures forall i :: 0 <= i < 3 ==> (r[i].flags != 0 <==> i == 2)
    ensures forall i :: 0 <= i < 3 ==> (r[i].priority != 0 <==> i == 2)
    ensures r[2].flags == UseArrayIndexFlag | UsePriorityFlag && r[2].priority == WritePriority
    ensures forall i :: 0 <= i < 3 ==> r[i].propertyArrayIndex == 0
  {
    [ WritePropertyAsync(0x00, 1, ObjectTypeAnalogOutput, PropertyIdentifierPresentValue, 0,
                         DataTypeReal, 0, "1.19"),
      WritePropertyAsync(0x00, 1, ObjectTypeBinaryOutput, PropertyIdentifierPresentValue, 0,
                         DataTypeEnumerated, 0, "1"),
      WritePropertyAsync(UseArrayIndexFlag | UsePriorityFlag, 14, ObjectTypeMultiStateOutput,
                         PropertyIdentifierPresentValue, 0, DataTypeEnumerated, 8, "7") ]
  }

  /** What one poll of the keyboard does: whether the main loop goes on, the new
      subOption, and the stack calls made, in order. */
  datatype Reaction = Reaction(running: bool, next: ConsoleKey, emitted: seq<Request>)

  /** The top menu's answer to a key (CheckUserInput with subOption == NoName). */
  function TopMenuReaction(key: ConsoleKey): (r: Reaction)
    ensures !r.running <==> key == Q
    ensures r.next == if key == D then D else NoName
    ensures r.emitted == [] <==> key !in {C, F, R, A, W, M, E, X}
  {
    var cs := ServerConnectionString();
    match key
    case D => Reaction(true, D, [])
    case F => Reaction(true, NoName, [SendRegisterForeignDevice(TimeToLive, cs)])
    case C => Reaction(true, NoName, [SendSubscribeCOV(SubscribeProcessIdentifier, ObjectTypeAnalogInput, 0,
                                                       false, TimeToLive, cs)])
    case R => Reaction(true, NoName, [BuildReadProperty(ObjectTypeAnalogInput, 0, PropertyIdentifierPresentValue,
                                                        false, 0),
                                      SendReadProperty(cs)])
    case A => Reaction(true, NoName, [BuildReadProperty(ObjectTypeDevice, 389999, PropertyIdentifierAll, false, 0),
                                      SendReadProperty(cs)])
    case W => Reaction(true, NoName, [BuildWriteProperty(DataTypeReal, "99.6", ObjectTypeAnalogOutput, 1,
                                                         PropertyIdentifierPresentValue, false, 0,
                                                         true, WritePriority),
                                      SendWriteProperty(cs)])
    case M => Reaction(true, NoName, [SendReadPropertyAsync(cs, ReadMultipleEntries())])
    case E => Reaction(true, NoName, [SendWritePropertyAsync(cs, WriteMultipleEntries())])
    case X =>
      var peer := EncodeEndpoint(Endpoint(DebugPeerAddress, BacnetPort));
      Reaction(true, NoName, [BuildReadProperty(ObjectTypeDevice, 389999, PropertyIdentifierObjectName, false, 0),
                              SendReadProperty(cs),
                              BuildReadProperty(ObjectTypeDevice, 389001, PropertyIdentifierObjectName, false, 0),
                              SendReadProperty(peer)])
    case Q => Reaction(false, NoName, [])
    case _ => Reaction(true, NoName, [])
  }

  /** The calls each top-menu key makes: R and A build and send a ReadProperty, W a
      WriteProperty; C, F, M and E make one addressed send of their own service. */
  lemma TopMenuRequests(key: ConsoleKey)
    ensures var r := TopMenuReaction(key);
            (key in {R, A, W} ==> |r.emitted| == 2 && IsBuild(r.emitted[0]) && Completes(r.emitted[0], r.emitted[1])) &&
            (key in {R, A} ==> r.emitted[0].BuildReadProperty?) &&
            (key == W ==> r.emitted[0].BuildWriteProperty?) &&
            (key in {C, F, M, E} ==> |r.emitted| == 1 && Addressed(r.emitted[0])) &&
            (key == C ==> r.emitted[0].SendSubscribeCOV?) &&
            (key == F ==> r.emitted[0].SendRegisterForeignDevice?) &&
            (key == M ==> r.emitted[0].SendReadPropertyAsync?) &&
            (key == E ==> r.emitted[0].SendWritePropertyAsync?)
  {
  }

  /** No top-menu key leaves a Build without its Send, or a Send without its Build. */
  lemma TopMenuBuildsPaired(key: ConsoleKey)
    ensures BuildsPaired(TopMenuReaction(key).emitted)
  {
  }

  /** Every top-menu request is addressed to the configured server, except that the
      debug key X also reads from a second peer. */
  lemma TopMenuDestinations(key: ConsoleKey)
    requires key != X
    ensures forall q <- TopMenuReaction(key).emitted :: Addressed(q) ==> q.connectionString == ServerConnectionString()
  {
  }

  /** The fixed parameters of the single-object requests. */
  lemma TopMenuRequestParameters()
    ensures TopMenuReaction(F).emitted == [SendRegisterForeignDevice(300, ServerConnectionString())]
    ensures TopMenuReaction(C).emitted[0] ==
              SendSubscribeCOV(500, ObjectTypeAnalogInput, 0, false, 300, ServerConnectionString())
    ensures TopMenuReaction(R).emitted[0] ==
              BuildReadProperty(ObjectTypeAnalogInput, 0, PropertyIdentifierPresentValue, false, 0)
    ensures TopMenuReaction(A).emitted[0] ==
              BuildReadProperty(ObjectTypeDevice, 389999, PropertyIdentifierAll, false, 0)
    ensures TopMenuReaction(W).emitted[0] ==
              BuildWriteProperty(DataTypeReal, "99.6", ObjectTypeAnalogOutput, 1, PropertyIdentifierPresentValue,
                                 false, 0, true, 8)
    ensures TopMenuReaction(M).emitted[0].readEntries == ReadMultipleEntries()
    ensures TopMenuReaction(E).emitted[0].writeEntries == WriteMultipleEntries()
  {
  }

  /** The WhoIs each submenu key sends. */
  lemma WhoIsRequests()
    ensures SubOptionReaction(D, L).emitted == [SendWhoIs(ServerConnectionString(), true, 0)]
    ensures SubOptionReaction(D, W).emitted ==
              [SendWhoIsWithLimits(389900, 389999, ServerConnectionString(), true, 0)]
    ensures SubOptionReaction(D, R).emitted == [SendWhoIs(ServerConnectionString(), true, 7)]
    ensures SubOptionReaction(D, G).emitted == [SendWhoIs(ServerConnectionString(), true, 0xFFFF)]
  {
  }

  /** The submenu's answer to a key (CheckUserSubOption); a subOption other than D is
      the switch's empty default. */
  function SubOptionReaction(subOption: ConsoleKey, key: ConsoleKey): (r: Reaction)
    ensures r.running
    ensures subOption == D ==> r.next == if key == Q then NoName else D
    ensures subOption != D ==> r == Reaction(true, subOption, [])
    ensures subOption == D ==> |r.emitted| == if key in {L, W, R, G} then 1 else 0
    ensures forall q <- r.emitted :: (q.SendWhoIs? || q.SendWhoIsWithLimits?) && q.broadcast &&
                                      q.connectionString == ServerConnectionString()
  {
    var cs := ServerConnectionString();
    if subOption != D then Reaction(true, subOption, [])
    else
      match key
      case L => Reaction(true, D, [SendWhoIs(cs, true, LocalNetwork)])
      case W => Reaction(true, D, [SendWhoIsWithLimits(WhoIsLowLimit, WhoIsHighLimit, cs, true, LocalNetwork)])
      case R => Reaction(true, D, [SendWhoIs(cs, true, RemoteNetwork)])
      case G => Reaction(true, D, [SendWhoIs(cs, true, GlobalNetwork)])
      case Q => Reaction(true, NoName, [])
      case _ => Reaction(true, D, [])
  }

  /** One call of CheckUserInput; `key` is None when Console.KeyAvailable is false. */
  function Poll(subOption: ConsoleKey, key: Option<ConsoleKey>): (r: Reaction)
    requires subOption == NoName || subOption == D
    ensures key.None? ==> r == Reaction(true, subOption, [])
    ensures !r.running <==> subOption == NoName && key == Some(Q)
    ensures r.next == NoName || r.next == D
  {
    match key
    case None => Reaction(true, subOption, [])
    case Some(k) =>
      if subOption != NoName then SubOptionReaction(subOption, k)
      else TopMenuReaction(k)
  }


  /** The outcome of the main loop over a script of keyboard polls: whether it quit,
      how many iterations ran, the final subOption and the stack calls made. */
  datatype SessionResult = SessionResult(quit: bool, iterations: nat, final: ConsoleKey, log: seq<Request>)

  /** One more loop iteration after `done`: CASBACnetStackAdapter.Loop, then one poll. */
  function Extend(done: SessionResult, key: Option<ConsoleKey>): SessionResult
    requires done.final == NoName || done.final == D
  {
    var step := Poll(done.final, key);
    SessionResult(!step.running, done.iterations + 1, step.next, done.log + [StackLoop] + step.emitted)
  }

  /** The for(;;) loop of Run over the first n entries of a script of keyboard polls
      (None: no key available), iteration by iteration: it stops at the first poll
      that returns false, or when the n polls run out. */
  function Session(subOption: ConsoleKey, polls: seq<Option<ConsoleKey>>, n: nat): (r: SessionResult)
    requires subOption == NoName || subOption == D
    requires n <= |polls|
    ensures r.final == NoName || r.final == D
    ensures r.iterations <= n
    ensures !r.quit ==> r.iterations == n
    ensures r.quit ==> r.iterations > 0
  {
    if n == 0 then SessionResult(false, 0, subOption, [])
    else
      var done := Session(subOption, polls, n - 1);
      if done.quit then done else Extend(done, polls[n - 1])
  }

  /** Once the loop has quit, later polls are never looked at. */
  lemma {:induction false} SessionStopsAtQuit(subOption: ConsoleKey, polls: seq<Option<ConsoleKey>>, k: nat, n: nat)
    requires subOption == NoName || subOption == D
    requires k <= n <= |polls| && Session(subOption, polls, k).quit
    ensures Session(subOption, polls, n) == Session(subOption, polls, k)
    decreases n
  {
    if k < n {
      SessionStopsAtQuit(subOption, polls, k, n - 1);
    }
  }

  /** Only the polls taken so far matter: a longer script with the same first n polls
      gives the same first n iterations. */
  lemma {:induction false} SessionPrefix(subOption: ConsoleKey, polls: seq<Option<ConsoleKey>>,
                                         more: seq<Option<ConsoleKey>>, n: nat)
    requires subOption == NoName || subOption == D
    requires n <= |polls| && n <= |more| && polls[..n] == more[..n]
    ensures Session(subOption, polls, n) == Session(subOption, more, n)
    decreases n
  {
    if n > 0 {
      assert polls[n - 1] == polls[..n][n - 1] == more[..n][n - 1] == more[n - 1];
      assert polls[..n - 1] == polls[..n][..n - 1];
      assert more[..n - 1] == more[..n][..n - 1];
      SessionPrefix(subOption, polls, more, n - 1);
    }
  }

  /** Poll k is the quit key pressed in the top menu, and the loop was still running. */
  predicate QuitsAt(subOption: ConsoleKey, polls: seq<Option<ConsoleKey>>, k: nat)
    requires subOption == NoName || subOption == D
    requires k < |polls|
  {
    var before := Session(subOption, polls, k);
    !before.quit && before.final == NoName && polls[k] == Some(Q)
  }

  /** The loop ends early only because Q was pressed in the top menu, at its last iteration. */
  lemma {:induction false} QuitOnlyOnTopMenuQ(subOption: ConsoleKey, polls: seq<Option<ConsoleKey>>, n: nat)
    requires subOption == NoName || subOption == D
    requires n <= |polls|
    ensures var r := Session(subOption, polls, n);
            r.quit ==> QuitsAt(subOption, polls, r.iterations - 1)
    decreases n
  {
    if n > 0 {
      var done := Session(subOption, polls, n - 1);
      if done.quit {
        QuitOnlyOnTopMenuQ(subOption, polls, n - 1);
      } else {
        var step := Poll(done.final, polls[n - 1]);
        assert !step.running ==> done.final == NoName && polls[n - 1] == Some(Q);
      }
    }
  }

  /** Conversely, Q pressed in the top menu while the loop runs always ends it, right there. */
  lemma TopMenuQQuits(subOption: ConsoleKey, polls: seq<Option<ConsoleKey>>, k: nat, n: nat)
    requires subOption == NoName || subOption == D
    requires k < n <= |polls| && QuitsAt(subOption, polls, k)
    ensures Session(subOption, polls, n).quit && Session(subOption, polls, n).iterations == k + 1
  {
  }

  lemma BuildsPairedConcat(a: seq<Request>, b: seq<Request>)
    requires BuildsPaired(a) && BuildsPaired(b)
    ensures BuildsPaired(a + b)
  {
  }

  /** Across a whole session, every Build call is immediately followed by its Send:
      they are never split across loop iterations. */
  lemma {:induction false} SessionBuildsPaired(subOption: ConsoleKey, polls: seq<Option<ConsoleKey>>, n: nat)
    requires subOption == NoName || subOption == D
    requires n <= |polls|
    ensures BuildsPaired(Session(subOption, polls, n).log)
    decreases n
  {
    if n > 0 {
      var done := Session(subOption, polls, n - 1);
      SessionBuildsPaired(subOption, polls, n - 1);
      if !done.quit {
        var emitted := Poll(done.final, polls[n - 1]).emitted;
        assert Session(subOption, polls, n).log == done.log + [StackLoop] + emitted;
        PollBuildsPaired(done.final, polls[n - 1]);
        BuildsPairedConcat(done.log, [StackLoop]);
        BuildsPairedConcat(done.log + [StackLoop], emitted);
      }
    }
  }

  /** No poll splits a Build from its Send. */
  lemma PollBuildsPaired(subOption: ConsoleKey, key: Option<ConsoleKey>)
    requires subOption == NoName || subOption == D
    ensures BuildsPaired(Poll(subOption, key).emitted)
  {
    if key.Some? && subOption == NoName {
      TopMenuBuildsPaired(key.value);
    }
  }

  /** The client object: the menu state and the log of stack calls made so far. */
  class BACnetClient {
    var subOption: ConsoleKey
    ghost var requests: seq<Request>

    /** subOption is NoName (top menu) or D (WhoIs submenu). */
    ghost predicate Valid()
      reads this
    {
      subOption == NoName || subOption == D
    }

    constructor ()
      ensures Valid() && subOption == NoName && requests == []
    {
      subOption := NoName;
      requests := [];
    }

    /** CheckUserSubOption. */
    method CheckUserSubOption(input: ConsoleKey)
      requires Valid()
      modifies this
      ensures Valid()
      ensures var r := SubOptionReaction(old(subOption), input);
              subOption == r.next && requests == old(requests) + r.emitted
    {
      var connectionStringAsBytes := CreateConnectionString(Endpoint(ServerAddress, BacnetPort));
      var cs := connectionStringAsBytes[..];
      match subOption
      case D =>
        match input {
          case L => requests := requests + [SendWhoIs(cs, true, LocalNetwork)];
          case W => requests := requests + [SendWhoIsWithLimits(389900, 389999, cs, true, LocalNetwork)];
          case R => requests := requests + [SendWhoIs(cs, true, RemoteNetwork)];
          case G => requests := requests + [SendWhoIs(cs, true, GlobalNetwork)];
          case Q => subOption := NoName;
          case _ =>
        }
      case _ =>
    }

    /** CheckUserInput: consume at most one key; false only for Q in the top menu. */
    method CheckUserInput(keyAvailable: Option<ConsoleKey>) returns (keepRunning: bool)
      requires Valid()
      modifies this
      ensures Valid()
      ensures var r := Poll(old(subOption), keyAvailable);
              keepRunning == r.running && subOption == r.next && requests == old(requests) + r.emitted
    {
      if keyAvailable.None? {
        return true;
      }
      var inputKey := keyAvailable.value;
      if subOption != NoName {
        CheckUserSubOption(inputKey);
        return true;
      }
      var connectionStringAsBytes := CreateConnectionString(Endpoint(ServerAddress, BacnetPort));
      var cs := connectionStringAsBytes[..];
      keepRunning := true;
      match inputKey
      case D =>
        subOption := inputKey;
      case F =>
        requests := requests + [SendRegisterForeignDevice(TimeToLive, cs)];
      case C =>
        requests := requests + [SendSubscribeCOV(500, ObjectTypeAnalogInput, 0, false, TimeToLive, cs)];
      case R =>
        requests := requests + [BuildReadProperty(ObjectTypeAnalogInput, 0, PropertyIdentifierPresentValue, false, 0)];
        requests := requests + [SendReadProperty(cs)];
      case A =>
        requests := requests + [BuildReadProperty(ObjectTypeDevice, 389999, PropertyIdentifierAll, false, 0)];
        requests := requests + [SendReadProperty(cs)];
      case W =>
        var valueString := "99.6";
        requests := requests + [BuildWriteProperty(DataTypeReal, valueString, ObjectTypeAnalogOutput, 1,
                                                   PropertyIdentifierPresentValue, false, 0, true, 8)];
        requests := requests + [SendWriteProperty(cs)];
      case M =>
        var readPropertyValues := ReadMultipleEntries();
        requests := requests + [SendReadPropertyAsync(cs, readPropertyValues)];
      case E =>
        var writePropertyValues := WriteMultipleEntries();
        requests := requests + [SendWritePropertyAsync(cs, writePropertyValues)];
      case X =>
        var testA := CreateConnectionString(Endpoint(ServerAddress, BacnetPort));
        requests := requests + [BuildReadProperty(ObjectTypeDevice, 389999, PropertyIdentifierObjectName, false, 0)];
        requests := requests + [SendReadProperty(testA[..])];
        var testB := CreateConnectionString(Endpoint(DebugPeerAddress, BacnetPort));
        requests := requests + [BuildReadProperty(ObjectTypeDevice, 389001, PropertyIdentifierObjectName, false, 0)];
        requests := requests + [SendReadProperty(testB[..])];
      case Q =>
        keepRunning := false;
      case _ =>
    }

    /** The main loop of Run: CASBACnetStackAdapter.Loop, then CheckUserInput, until
        CheckUserInput returns false; `polls` stands for the keyboard. */
    method Run(polls: seq<Option<ConsoleKey>>) returns (quit: bool, iterations: nat)
      requires Valid()
      modifies this
      ensures Valid()
      ensures var r := Session(old(subOption), polls, |polls|);
              quit == r.quit && iterations == r.iterations && subOption == r.final &&
              requests == old(requests) + r.log
    {
      ghost var initial, log0 := subOption, requests;
      ghost var session := SessionResult(false, 0, subOption, []);
      quit, iterations := false, 0;
      while !quit && iterations < |polls|
        invariant Valid()
        invariant iterations <= |polls|
        invariant session == Session(initial, polls, iterations)
        invariant quit == session.quit && iterations == session.iterations && subOption == session.final
        invariant requests == log0 + session.log
        decreases |polls| - iterations
      {
        ghost var emitted := Poll(subOption, polls[iterations]).emitted;
        assert log0 + session.log + [StackLoop] + emitted == log0 + (session.log + [StackLoop] + emitted);
        requests := requests + [StackLoop];
        var keepRunning := CheckUserInput(polls[iterations]);
        session := Extend(session, polls[iterations]);
        iterations := iterations + 1;
        quit := !keepRunning;
      }
      if quit {
        SessionStopsAtQuit(initial, polls, iterations, |polls|);
      }
    }
  }
}
