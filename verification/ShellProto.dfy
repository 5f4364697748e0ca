/**
 The shell protocol (tunshell-client/src/shell/proto.rs): messages of the tunnel travel inside the
 messages of the shell, some as JSON and some in a binary form.
 */
module ShellProto {
  import opened Wrappers
  import opened SeqNumber
  import opened Messages
  import P = Packet
  import S = MessageStreams

  datatype NetworkMessage =
    | TcpConnect(id: u32, host: string, port: u16)
    | TcpConnectResult(id: u32, error: Option<string>)
    | TcpSend(id: u32, data: seq<byte>)
    | TcpRecv(id: u32, data: seq<byte>)
    | TcpClose(id: u32)
    | UdpSend(id: u32, data: seq<byte>)
    | UdpRecv(id: u32, data: seq<byte>)
    | Notice(text: string)

  datatype WindowSize = WindowSize(width: u16, height: u16)

  datatype Direction = LocalToRemote | RemoteToLocal

  datatype Protocol = Tcp | Udp

  datatype Binding = Binding(
    direction: Direction,
    protocol: Protocol,
    localAddr: string,
    localPort: u16,
    remoteAddr: string,
    remotePort: u16)

  datatype StartShellPayload = StartShellPayload(
    term: string,
    color: bool,
    size: WindowSize,
    remotePtySupport: bool,
    bindings: seq<Binding>)

  datatype ShellStartedPayload = LocalPty | RemotePty | Fallback

  datatype RemotePtyDataPayload = RemotePtyDataPayload(conId: u32, data: seq<byte>)

  datatype RemotePtyEventPayload = Connect(conId: u32) | Payload(payload: RemotePtyDataPayload) | CloseEvent(conId: u32)

  datatype ShellClientMessage =
    | Key(key: string)
    | StartShell(start: StartShellPayload)
    | Network(network: NetworkMessage)
    | Stdin(data: seq<byte>)
    | Resize(size: WindowSize)
    | RemotePtyData(payload: RemotePtyDataPayload)
    | ClientError(text: string)

  datatype ShellServerMessage =
    | KeyAccepted
    | KeyRejected
    | ShellStarted(started: ShellStartedPayload)
    | ServerNetwork(network: NetworkMessage)
    | Stdout(data: seq<byte>)
    | Exited(code: byte)
    | RemotePtyEvent(event: RemotePtyEventPayload)
    | ServerError(text: string)

  datatype ShellJson = ShellJson(
    utf8: Codec<string>,
    network: Codec<NetworkMessage>,
    start: Codec<StartShellPayload>,
    size: Codec<WindowSize>,
    ptyData: Codec<RemotePtyDataPayload>,
    started: Codec<ShellStartedPayload>,
    ptyEvent: Codec<RemotePtyEventPayload>)

  ghost predicate FaithfulShell(j: ShellJson) {
    && Faithful(j.utf8) && Faithful(j.network) && Faithful(j.start) && Faithful(j.size)
    && Faithful(j.ptyData) && Faithful(j.started) && Faithful(j.ptyEvent)
  }

  // Tunnel messages

  function NetworkType(m: NetworkMessage): byte {
    match m
    case TcpConnect(_, _, _) => 3
    case TcpConnectResult(_, _) => 4
    case TcpSend(_, _) => 5
    case TcpRecv(_, _) => 6
    case TcpClose(_) => 7
    case UdpRecv(_, _) => 10
    case UdpSend(_, _) => 11
    case Notice(_) => 255
  }

  function NetworkData(j: ShellJson, m: NetworkMessage): seq<byte> {
    match m
    case TcpSend(id, data) => P.BE32(id) + data
    case TcpRecv(id, data) => P.BE32(id) + data
    case UdpSend(id, data) => P.BE32(id) + data
    case _ => j.network.encode(m)
  }

  function SerialiseNetwork(j: ShellJson, m: NetworkMessage): Result<RawMessage, MessageError> {
    NewRaw(NetworkType(m), NetworkData(j, m))
  }

  function SendLike(data: seq<byte>): Option<(u32, seq<byte>)> {
    if |data| < 4 then None else Some((P.ReadBE32(data, 0), data[4..]))
  }

  function DeserialiseNetwork(j: ShellJson, raw: RawMessage): Result<NetworkMessage, MessageError> {
    match raw.typeId
    case 5 => Mapped(SendLike(raw.data), (p: (u32, seq<byte>)) => TcpSend(p.0, p.1))
    case 6 => Mapped(SendLike(raw.data), (p: (u32, seq<byte>)) => TcpRecv(p.0, p.1))
    case 10 => Mapped(SendLike(raw.data), (p: (u32, seq<byte>)) => UdpRecv(p.0, p.1))
    case 11 => Mapped(SendLike(raw.data), (p: (u32, seq<byte>)) => UdpSend(p.0, p.1))
    case _ => Mapped(j.network.parse(raw.data), (m: NetworkMessage) => m)
  }

  lemma SendLikeExact(data: seq<byte>, id: u32, payload: seq<byte>)
    ensures SendLike(data) == Some((id, payload)) <==> data == P.BE32(id) + payload
  {
    if |data| >= 4 {
      P.BE32RoundTrip(id, data, 0);
      assert data == data[..4] + data[4..] && data[0..4] == data[..4];
      if data == P.BE32(id) + payload {
        assert data[0..4] == P.BE32(id) && data[4..] == payload;
      }
    }
  }

  /** A tunnel message comes back exactly when it is not a UdpRecv; a UdpRecv would only if its JSON
      were its binary form. */
  lemma NetworkRoundTrip(j: ShellJson, m: NetworkMessage)
    requires FaithfulShell(j) && SerialiseNetwork(j, m).Ok?
    ensures DeserialiseNetwork(j, SerialiseNetwork(j, m).value) == Ok(m) <==>
              (m.UdpRecv? ==> j.network.encode(m) == P.BE32(m.id) + m.data)
  {
    var data := NetworkData(j, m);
    hide P.BE32, SendLike;
    if m.TcpSend? || m.TcpRecv? || m.UdpSend? || m.UdpRecv? {
      SendLikeExact(data, m.id, m.data);
    } else {
      assert j.network.parse(j.network.encode(m)) == Some(m);
    }
  }

  /** The binary form: the connection's number, most significant byte first, then the payload. */
  lemma PayloadOnTheWire(j: ShellJson, id: u32, payload: seq<byte>)
    requires |payload| <= MAX_DATA - 4
    ensures forall i :: 0 <= i < 3 ==>
              var m := [TcpSend(id, payload), TcpRecv(id, payload), UdpSend(id, payload)][i];
              && SerialiseNetwork(j, m).Ok?
              && var raw := SerialiseNetwork(j, m).value;
              raw.typeId == [5, 6, 11][i] && |raw.data| == 4 + |payload| && P.Value(raw.data[..4]) == id
              && raw.data[4..] == payload
  {
    P.BigEndian(id, 0);
    hide P.BE32, P.Value;
    assert (P.BE32(id) + payload)[..4] == P.BE32(id) && (P.BE32(id) + payload)[4..] == payload;
  }

  /** A tunnel message is refused exactly when it is too short for its binary form, or is no JSON. */
  lemma NetworkRefused(j: ShellJson, raw: RawMessage)
    ensures DeserialiseNetwork(j, raw).Err? <==>
              if raw.typeId in [5, 6, 10, 11] then |raw.data| < 4 else j.network.parse(raw.data).None?
  {
  }

  // {"UdpRecv":[1,[]]}
  const UDP_RECV_JSON: seq<byte> :=
    [123, 34, 85, 100, 112, 82, 101, 99, 118, 34, 58, 91, 49, 44, 91, 93, 93, 125]

  /** The JSON of a UdpRecv read as binary: another connection and the rest of the JSON as its data. */
  lemma UdpRecvGarbled(j: ShellJson)
    requires j.network.encode(UdpRecv(1, [])) == UDP_RECV_JSON
    ensures SerialiseNetwork(j, UdpRecv(1, [])).Ok?
    ensures DeserialiseNetwork(j, SerialiseNetwork(j, UdpRecv(1, [])).value) ==
              Ok(UdpRecv(0x7B22_5564, UDP_RECV_JSON[4..]))
  {
    assert P.ReadBE32(UDP_RECV_JSON, 0) == 0x7B22_5564;
  }

  function SerialiseEmbedded(j: ShellJson, m: NetworkMessage): Result<seq<byte>, MessageError> {
    match SerialiseNetwork(j, m)
    case Err(e) => Err(e)
    case Ok(raw) => Ok([raw.typeId] + raw.data)
  }

  function DeserialiseEmbedded(j: ShellJson, data: seq<byte>): Result<NetworkMessage, MessageError> {
    if data == [] then Err(Malformed) else
    match NewRaw(data[0], data[1..])
    case Err(e) => Err(e)
    case Ok(raw) => DeserialiseNetwork(j, raw)
  }

  // Shell messages

  function Typed(typeId: byte, data: Result<seq<byte>, MessageError>): Result<RawMessage, MessageError> {
    match data
    case Err(e) => Err(e)
    case Ok(bytes) => NewRaw(typeId, bytes)
  }

  function SerialiseClient(j: ShellJson, m: ShellClientMessage): Result<RawMessage, MessageError> {
    match m
    case Key(key) => NewRaw(1, j.utf8.encode(key))
    case StartShell(start) => NewRaw(2, j.start.encode(start))
    case Stdin(data) => NewRaw(3, data)
    case Resize(size) => NewRaw(4, j.size.encode(size))
    case RemotePtyData(payload) => NewRaw(5, j.ptyData.encode(payload))
    case Network(network) => Typed(6, SerialiseEmbedded(j, network))
    case ClientError(text) => NewRaw(255, j.utf8.encode(text))
  }

  function MapOk<T, U>(r: Result<T, MessageError>, f: T -> U): Result<U, MessageError> {
    match r
    case Err(e) => Err(e)
    case Ok(x) => Ok(f(x))
  }

  function DeserialiseClient(j: ShellJson, raw: RawMessage): Result<ShellClientMessage, MessageError> {
    match raw.typeId
    case 1 => Mapped(j.utf8.parse(raw.data), k => ShellClientMessage.Key(k))
    case 2 => Mapped(j.start.parse(raw.data), s => StartShell(s))
    case 3 => Ok(Stdin(raw.data))
    case 4 => Mapped(j.size.parse(raw.data), s => Resize(s))
    case 5 => Mapped(j.ptyData.parse(raw.data), p => RemotePtyData(p))
    case 6 => MapOk(DeserialiseEmbedded(j, raw.data), n => Network(n))
    case 255 => Mapped(j.utf8.parse(raw.data), t => ClientError(t))
    case _ => Err(Unknown(raw.typeId))
  }

  function SerialiseServer(j: ShellJson, m: ShellServerMessage): Result<RawMessage, MessageError> {
    match m
    case KeyAccepted => NewRaw(1, [])
    case KeyRejected => NewRaw(2, [])
    case ShellStarted(started) => NewRaw(3, j.started.encode(started))
    case Stdout(data) => NewRaw(4, data)
    case Exited(code) => NewRaw(5, [code])
    case RemotePtyEvent(event) => NewRaw(6, j.ptyEvent.encode(event))
    case ServerNetwork(network) => Typed(7, SerialiseEmbedded(j, network))
    case ServerError(text) => NewRaw(255, j.utf8.encode(text))
  }

  function DeserialiseServer(j: ShellJson, raw: RawMessage): Result<ShellServerMessage, MessageError> {
    match raw.typeId
    case 1 => Ok(ShellServerMessage.KeyAccepted)
    case 2 => Ok(ShellServerMessage.KeyRejected)
    case 3 => Mapped(j.started.parse(raw.data), s => ShellStarted(s))
    case 4 => Ok(Stdout(raw.data))
    case 5 => if raw.data == [] then Err(Malformed) else Ok(Exited(raw.data[0]))
    case 6 => Mapped(j.ptyEvent.parse(raw.data), e => RemotePtyEvent(e))
    case 7 => MapOk(DeserialiseEmbedded(j, raw.data), n => ServerNetwork(n))
    case 255 => Mapped(j.utf8.parse(raw.data), t => ServerError(t))
    case _ => Err(Unknown(raw.typeId))
  }

  /** A shell message is refused exactly when its number is not known or its data does not parse. */
  lemma ClientRefused(j: ShellJson, raw: RawMessage)
    ensures DeserialiseClient(j, raw).Err? <==>
              match raw.typeId
              case 1 => j.utf8.parse(raw.data).None?
              case 2 => j.start.parse(raw.data).None?
              case 3 => false
              case 4 => j.size.parse(raw.data).None?
              case 5 => j.ptyData.parse(raw.data).None?
              case 6 => DeserialiseEmbedded(j, raw.data).Err?
              case 255 => j.utf8.parse(raw.data).None?
              case _ => true
  {
  }

  lemma ServerRefused(j: ShellJson, raw: RawMessage)
    ensures DeserialiseServer(j, raw).Err? <==>
              match raw.typeId
              case 1 => false
              case 2 => false
              case 3 => j.started.parse(raw.data).None?
              case 4 => false
              case 5 => raw.data == []
              case 6 => j.ptyEvent.parse(raw.data).None?
              case 7 => DeserialiseEmbedded(j, raw.data).Err?
              case 255 => j.utf8.parse(raw.data).None?
              case _ => true
  {
  }

  /** The limit on data applies to the tunnel message and again to the shell message around it, which
      has one byte more. */
  lemma EmbeddedLimit(j: ShellJson, m: NetworkMessage)
    ensures SerialiseClient(j, Network(m)).Ok? <==> |NetworkData(j, m)| < MAX_DATA
    ensures SerialiseServer(j, ServerNetwork(m)).Ok? <==> |NetworkData(j, m)| < MAX_DATA
  {
  }

  lemma EmbeddedRoundTrip(j: ShellJson, m: NetworkMessage)
    requires FaithfulShell(j) && SerialiseEmbedded(j, m).Ok?
    ensures DeserialiseEmbedded(j, SerialiseEmbedded(j, m).value) == Ok(m) <==>
              (m.UdpRecv? ==> j.network.encode(m) == P.BE32(m.id) + m.data)
  {
    var raw, data := SerialiseNetwork(j, m).value, SerialiseEmbedded(j, m).value;
    assert data[0] == raw.typeId && data[1..] == raw.data;
    NetworkRoundTrip(j, m);
  }

  lemma ClientRoundTrip(j: ShellJson, m: ShellClientMessage)
    requires FaithfulShell(j) && SerialiseClient(j, m).Ok? && !(m.Network? && m.network.UdpRecv?)
    ensures DeserialiseClient(j, SerialiseClient(j, m).value) == Ok(m)
  {
    hide NetworkData, DeserialiseNetwork;
    match m
    case Key(key) => assert j.utf8.parse(j.utf8.encode(key)) == Some(key);
    case StartShell(start) => assert j.start.parse(j.start.encode(start)) == Some(start);
    case Stdin(_) =>
    case Resize(size) => assert j.size.parse(j.size.encode(size)) == Some(size);
    case RemotePtyData(p) => assert j.ptyData.parse(j.ptyData.encode(p)) == Some(p);
    case Network(network) => EmbeddedRoundTrip(j, network);
    case ClientError(text) => assert j.utf8.parse(j.utf8.encode(text)) == Some(text);
  }

  lemma ServerRoundTrip(j: ShellJson, m: ShellServerMessage)
    requires FaithfulShell(j) && SerialiseServer(j, m).Ok? && !(m.ServerNetwork? && m.network.UdpRecv?)
    ensures DeserialiseServer(j, SerialiseServer(j, m).value) == Ok(m)
  {
    hide NetworkData, DeserialiseNetwork;
    match m
    case ShellStarted(started) => assert j.started.parse(j.started.encode(started)) == Some(started);
    case RemotePtyEvent(event) => assert j.ptyEvent.parse(j.ptyEvent.encode(event)) == Some(event);
    case ServerNetwork(network) => EmbeddedRoundTrip(j, network);
    case ServerError(text) => assert j.utf8.parse(j.utf8.encode(text)) == Some(text);
    case _ =>
  }

  /** Shell messages arrive as they were sent, through framing, unframing and both codecs. */
  lemma ClientMessagesArrive(j: ShellJson, ms: seq<ShellClientMessage>, raws: seq<RawMessage>)
    requires FaithfulShell(j) && |raws| == |ms|
    requires forall i :: 0 <= i < |ms| ==>
               SerialiseClient(j, ms[i]) == Ok(raws[i]) && !(ms[i].Network? && ms[i].network.UdpRecv?)
    ensures var given := S.Results((raw: RawMessage) => DeserialiseClient(j, raw), S.Frames(raws));
            |given| == |ms| && forall i :: 0 <= i < |ms| ==> given[i] == Ok(ms[i])
  {
    hide SerialiseNetwork, DeserialiseNetwork;
    var d := (raw: RawMessage) => DeserialiseClient(j, raw);
    forall i | 0 <= i < |ms| ensures S.FromNew(raws[i]) && d(raws[i]) == Ok(ms[i]) {
      ClientRoundTrip(j, ms[i]);
    }
    S.FramesDecode(d, raws, ms);
  }

  lemma ServerMessagesArrive(j: ShellJson, ms: seq<ShellServerMessage>, raws: seq<RawMessage>)
    requires FaithfulShell(j) && |raws| == |ms|
    requires forall i :: 0 <= i < |ms| ==>
               SerialiseServer(j, ms[i]) == Ok(raws[i]) && !(ms[i].ServerNetwork? && ms[i].network.UdpRecv?)
    ensures var given := S.Results((raw: RawMessage) => DeserialiseServer(j, raw), S.Frames(raws));
            |given| == |ms| && forall i :: 0 <= i < |ms| ==> given[i] == Ok(ms[i])
  {
    hide SerialiseNetwork, DeserialiseNetwork;
    var d := (raw: RawMessage) => DeserialiseServer(j, raw);
    forall i | 0 <= i < |ms| ensures S.FromNew(raws[i]) && d(raws[i]) == Ok(ms[i]) {
      ServerRoundTrip(j, ms[i]);
    }
    S.FramesDecode(d, raws, ms);
  }
}
