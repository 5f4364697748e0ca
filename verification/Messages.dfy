/**
 Raw messages and the relay's message types (tunshell-shared/src/message.rs). JSON is an abstract
 pair of a printer and a parser.
 */
module Messages {
  import opened Wrappers
  import P = Packet

  type u16 = x: int | 0 <= x < 0x1_0000

  const MAX_DATA := 32767 // i16::MAX

  datatype MessageError = TooLong(len: nat) | Unknown(typeId: byte) | Malformed

  datatype RawMessage = RawMessage(typeId: byte, length: u16, data: seq<byte>)

  function NewRaw(typeId: byte, data: seq<byte>): Result<RawMessage, MessageError> {
    if |data| > MAX_DATA then Err(TooLong(|data|)) else Ok(RawMessage(typeId, |data|, data))
  }

  /** One byte of type, two of length, then the data. */
  function ToVec(m: RawMessage): seq<byte> {
    [m.typeId, (|m.data| / 0x100) % 0x100, |m.data| % 0x100] + m.data
  }

  /** The length is sent with its most significant byte first. */
  lemma RawOnTheWire(m: RawMessage)
    requires |m.data| <= MAX_DATA
    ensures var d := ToVec(m);
            && |d| == 3 + |m.data| && d[0] == m.typeId && P.Value(d[1..3]) == |m.data| && d[3..] == m.data
  {
    var d := ToVec(m);
    assert d[1..3] == [d[1], d[2]] && d[3..] == m.data;
    P.Value2(d[1..3]);
  }

  datatype Codec<!T> = Codec(encode: T -> seq<byte>, parse: seq<byte> -> Option<T>)

  /** Parsing gives back what was printed. */
  ghost predicate Faithful<T(!new)>(c: Codec<T>) {
    forall x: T :: c.parse(c.encode(x)) == Some(x)
  }

  datatype PeerJoinedPayload = PeerJoinedPayload(peerKey: string, peerIpAddress: string, sessionNonce: string)

  datatype PortBindings = PortBindings(udpPort: Option<u16>, tcpPort: Option<u16>)

  datatype ServerMessage =
    | Close
    | KeyAccepted
    | KeyRejected
    | AlreadyJoined
    | PeerJoined(peer: PeerJoinedPayload)
    | PeerLeft
    | BindForDirectConnect
    | AttemptDirectConnect(ports: PortBindings)
    | StartRelayMode
    | Relay(data: seq<byte>)

  datatype ClientMessage =
    | CloseClient
    | Key(key: string)
    | DirectConnectBound(bound: PortBindings)
    | DirectConnectSucceeded
    | DirectConnectFailed
    | RelayClient(data: seq<byte>)

  datatype RelayJson = RelayJson(peer: Codec<PeerJoinedPayload>, ports: Codec<PortBindings>, key: Codec<string>)

  ghost predicate FaithfulJson(j: RelayJson) {
    Faithful(j.peer) && Faithful(j.ports) && Faithful(j.key)
  }

  function ServerType(m: ServerMessage): byte {
    match m
    case Close => 0
    case KeyAccepted => 1
    case KeyRejected => 2
    case AlreadyJoined => 3
    case PeerJoined(_) => 4
    case PeerLeft => 5
    case BindForDirectConnect => 6
    case AttemptDirectConnect(_) => 7
    case StartRelayMode => 8
    case Relay(_) => 9
  }

  function ServerData(j: RelayJson, m: ServerMessage): seq<byte> {
    match m
    case PeerJoined(peer) => j.peer.encode(peer)
    case AttemptDirectConnect(ports) => j.ports.encode(ports)
    case Relay(data) => data
    case _ => []
  }

  function SerialiseServer(j: RelayJson, m: ServerMessage): Result<RawMessage, MessageError> {
    NewRaw(ServerType(m), ServerData(j, m))
  }

  function Mapped<S, T>(o: Option<S>, f: S -> T): Result<T, MessageError> {
    match o
    case Some(x) => Ok(f(x))
    case None => Err(Malformed)
  }

  function DeserialiseServer(j: RelayJson, raw: RawMessage): Result<ServerMessage, MessageError> {
    match raw.typeId
    case 1 => Ok(KeyAccepted)
    case 4 => Mapped(j.peer.parse(raw.data), p => PeerJoined(p))
    case 6 => Ok(BindForDirectConnect)
    case 7 => Mapped(j.ports.parse(raw.data), p => AttemptDirectConnect(p))
    case 9 => Ok(Relay(raw.data))
    case _ =>
      if raw.length != 0 then Err(Unknown(raw.typeId)) else
      match raw.typeId
      case 0 => Ok(Close)
      case 2 => Ok(KeyRejected)
      case 3 => Ok(AlreadyJoined)
      case 5 => Ok(PeerLeft)
      case 8 => Ok(StartRelayMode)
      case _ => Err(Unknown(raw.typeId))
  }

  function ClientType(m: ClientMessage): byte {
    match m
    case CloseClient => 0
    case Key(_) => 1
    case DirectConnectBound(_) => 2
    case DirectConnectSucceeded => 3
    case DirectConnectFailed => 4
    case RelayClient(_) => 5
  }

  function ClientData(j: RelayJson, m: ClientMessage): seq<byte> {
    match m
    case Key(key) => j.key.encode(key)
    case DirectConnectBound(ports) => j.ports.encode(ports)
    case RelayClient(data) => data
    case _ => []
  }

  function SerialiseClient(j: RelayJson, m: ClientMessage): Result<RawMessage, MessageError> {
    NewRaw(ClientType(m), ClientData(j, m))
  }

  function DeserialiseClient(j: RelayJson, raw: RawMessage): Result<ClientMessage, MessageError> {
    match raw.typeId
    case 1 => Mapped(j.key.parse(raw.data), k => Key(k))
    case 2 => Mapped(j.ports.parse(raw.data), p => DirectConnectBound(p))
    case 5 => Ok(RelayClient(raw.data))
    case _ =>
      if raw.length != 0 then Err(Unknown(raw.typeId)) else
      match raw.typeId
      case 0 => Ok(CloseClient)
      case 3 => Ok(DirectConnectSucceeded)
      case 4 => Ok(DirectConnectFailed)
      case _ => Err(Unknown(raw.typeId))
  }

  /** The frames of messages without data, by their numbers, and of a payload. */
  lemma ServerFrames(j: RelayJson, payload: seq<byte>)
    requires |payload| < 0x100
    ensures forall i :: 0 <= i < 7 ==>
              var m := [Close, KeyAccepted, KeyRejected, AlreadyJoined, PeerLeft, BindForDirectConnect,
                        StartRelayMode][i];
              && SerialiseServer(j, m).Ok?
              && ToVec(SerialiseServer(j, m).value) == [[0, 0, 0], [1, 0, 0], [2, 0, 0], [3, 0, 0], [5, 0, 0],
                                                        [6, 0, 0], [8, 0, 0]][i]
    ensures SerialiseServer(j, Relay(payload)).Ok?
    ensures ToVec(SerialiseServer(j, Relay(payload)).value) == [9, 0, |payload|] + payload
  {
  }

  lemma ClientFrames(j: RelayJson, payload: seq<byte>)
    requires |payload| < 0x100
    ensures forall i :: 0 <= i < 3 ==>
              var m := [CloseClient, DirectConnectSucceeded, DirectConnectFailed][i];
              && SerialiseClient(j, m).Ok?
              && ToVec(SerialiseClient(j, m).value) == [[0, 0, 0], [3, 0, 0], [4, 0, 0]][i]
    ensures SerialiseClient(j, RelayClient(payload)).Ok?
    ensures ToVec(SerialiseClient(j, RelayClient(payload)).value) == [5, 0, |payload|] + payload
  {
  }

  /** A raw message is refused exactly when its number is not known, when its data does not parse, or when it
      has data and should have none; KeyAccepted and BindForDirectConnect do not mind data. */
  lemma ServerRefused(j: RelayJson, raw: RawMessage)
    ensures DeserialiseServer(j, raw).Err? <==>
              || raw.typeId > 9
              || (raw.typeId == 4 && j.peer.parse(raw.data).None?)
              || (raw.typeId == 7 && j.ports.parse(raw.data).None?)
              || (raw.typeId in [0, 2, 3, 5, 8] && raw.length != 0)
  {
  }

  lemma ClientRefused(j: RelayJson, raw: RawMessage)
    ensures DeserialiseClient(j, raw).Err? <==>
              || raw.typeId > 5
              || (raw.typeId == 1 && j.key.parse(raw.data).None?)
              || (raw.typeId == 2 && j.ports.parse(raw.data).None?)
              || (raw.typeId in [0, 3, 4] && raw.length != 0)
  {
  }

  /** Serialising fails exactly for data that is too long; otherwise the message comes back. */
  lemma ServerRoundTrip(j: RelayJson, m: ServerMessage)
    requires FaithfulJson(j)
    ensures SerialiseServer(j, m).Ok? <==> |ServerData(j, m)| <= MAX_DATA
    ensures SerialiseServer(j, m).Ok? ==> DeserialiseServer(j, SerialiseServer(j, m).value) == Ok(m)
  {
    match m
    case PeerJoined(peer) => assert j.peer.parse(j.peer.encode(peer)) == Some(peer);
    case AttemptDirectConnect(ports) => assert j.ports.parse(j.ports.encode(ports)) == Some(ports);
    case _ =>
  }

  lemma ClientRoundTrip(j: RelayJson, m: ClientMessage)
    requires FaithfulJson(j)
    ensures SerialiseClient(j, m).Ok? <==> |ClientData(j, m)| <= MAX_DATA
    ensures SerialiseClient(j, m).Ok? ==> DeserialiseClient(j, SerialiseClient(j, m).value) == Ok(m)
  {
    match m
    case Key(key) => assert j.key.parse(j.key.encode(key)) == Some(key);
    case DirectConnectBound(ports) => assert j.ports.parse(j.ports.encode(ports)) == Some(ports);
    case _ =>
  }
}
