/** The multiplayer store (src/stores/multiplayerStore.ts): a connection
    state machine with an in-flight guard around one join attempt, and
    room-guarded senders. `connect` is asynchronous: `Connect` is its part
    up to the awaited join and `ConnectSettled` the continuation that runs
    when the join settles. */
module MultiplayerStore {
  import opened Wrappers
  import opened ColyseusTypes
  import opened Transport

  /** Used when the server-URL environment variable is unset. */
  const DEFAULT_SERVER_URL: string := "ws://localhost:2567"

  /** What `connect` hands the transport: `client.joinOrCreate("my_room",
      { username })`. */
  datatype JoinRequest = JoinRequest(client: ClientHandle, roomName: string, username: string)

  /** The message recorded when the join rejects. */
  function FailureMessage(t: Thrown): (m: string)
    ensures t.ErrorObject? ==> m == t.message
    ensures t.OtherValue? ==> m == "Connection failed"
  {
    match t
    case ErrorObject(message) => message
    case OtherValue => "Connection failed"
  }

  /** A `{ x, y, z }` payload. */
  function XyzPayload(x: real, y: real, z: real): (p: map<string, Value>)
    ensures p.Keys == {"x", "y", "z"}
    ensures p["x"] == Num(x) && p["y"] == Num(y) && p["z"] == Num(z)
  {
    map["x" := Num(x), "y" := Num(y), "z" := Num(z)]
  }

  class Store {
    var client: Option<ClientHandle>
    var room: Option<RoomHandle>
    var connectionState: ConnectionState
    var error: Option<string>
    var serverUrl: string

    constructor ()
      ensures client == None && room == None && connectionState == Disconnected
      ensures error == None && serverUrl == DEFAULT_SERVER_URL
    {
      client, room, connectionState, error := None, None, Disconnected, None;
      serverUrl := DEFAULT_SERVER_URL;
    }

    method SetServerUrl(url: string)
      modifies this
      ensures serverUrl == url
      ensures client == old(client) && room == old(room)
      ensures connectionState == old(connectionState) && error == old(error)
    {
      serverUrl := url;
    }

    /** The synchronous part of `connect(username)`. While connected or
        connecting nothing changes and no join is attempted. Otherwise the
        state becomes `connecting` with no error, and the join goes through
        the existing client, or through a new client for `serverUrl`
        (numbered `serial`) when there is none; the new client is stored
        only if the join succeeds. */
    method Connect(username: string, serial: nat) returns (join: Option<JoinRequest>)
      modifies this
      ensures old(connectionState) == Connected || old(connectionState) == Connecting ==>
        join == None && connectionState == old(connectionState) && error == old(error)
      ensures old(connectionState) != Connected && old(connectionState) != Connecting ==>
        && connectionState == Connecting && error == None
        && join == Some(JoinRequest(old(client).GetOr(ClientHandle(old(serverUrl), serial)), DEFAULT_ROOM_NAME, username))
      ensures client == old(client) && room == old(room) && serverUrl == old(serverUrl)
    {
      if connectionState == Connected || connectionState == Connecting {
        return None;
      }
      connectionState, error := Connecting, None;
      var colyseusClient := if client.Some? then client.value else ClientHandle(serverUrl, serial);
      join := Some(JoinRequest(colyseusClient, DEFAULT_ROOM_NAME, username));
    }

    /** The continuation of `connect` once the join settles. Success stores
        the client and the room, `connected`, no error. Failure records
        `error` with a message and is swallowed: nothing is re-thrown. */
    method ConnectSettled(request: JoinRequest, outcome: JoinOutcome)
      modifies this
      ensures outcome.Joined? ==>
        && client == Some(request.client) && room == Some(outcome.room)
        && connectionState == Connected && error == None
      ensures outcome.Rejected? ==>
        && client == old(client) && room == old(room)
        && connectionState == Error && error == Some(FailureMessage(outcome.thrown))
      ensures serverUrl == old(serverUrl)
    {
      match outcome
      case Joined(r) =>
        client, room, connectionState, error := Some(request.client), Some(r), Connected, None;
      case Rejected(t) =>
        connectionState, error := Error, Some(FailureMessage(t));
    }

    /** `disconnect()`: leaves the room if there is one (without awaiting),
        then always ends with no room, `disconnected` and no error. */
    method Disconnect() returns (leaveRequested: bool)
      modifies this
      ensures leaveRequested <==> old(room).Some?
      ensures room == None && connectionState == Disconnected && error == None
      ensures client == old(client) && serverUrl == old(serverUrl)
    {
      leaveRequested := room.Some?;
      room, connectionState, error := None, Disconnected, None;
    }

    /** The room's `onError` listener that `connect` registers. */
    method OnRoomError(code: int, message: Option<string>)
      modifies this
      ensures connectionState == Error && error == message
      ensures client == old(client) && room == old(room) && serverUrl == old(serverUrl)
    {
      connectionState, error := Error, message;
    }

    /** The room's `onLeave` listener that `connect` registers. */
    method OnRoomLeave(code: int)
      modifies this
      ensures connectionState == Disconnected && room == None
      ensures client == old(client) && error == old(error) && serverUrl == old(serverUrl)
    {
      connectionState, room := Disconnected, None;
    }

    /** `sendPosition(x, y, z)`: the message sent, none without a room. */
    method SendPosition(x: real, y: real, z: real) returns (sent: Option<Message>)
      ensures sent.Some? <==> room.Some?
      ensures sent.Some? ==> sent.value == Message("position", XyzPayload(x, y, z))
    {
      if room.None? {
        return None;
      }
      sent := Some(Message("position", XyzPayload(x, y, z)));
    }

    method SendRotation(x: real, y: real, z: real) returns (sent: Option<Message>)
      ensures sent.Some? <==> room.Some?
      ensures sent.Some? ==> sent.value == Message("rotation", XyzPayload(x, y, z))
    {
      if room.None? {
        return None;
      }
      sent := Some(Message("rotation", XyzPayload(x, y, z)));
    }

    method SendAnimation(animation: string) returns (sent: Option<Message>)
      ensures sent.Some? <==> room.Some?
      ensures sent.Some? ==> sent.value == Message("animation", map["animation" := Text(animation)])
    {
      if room.None? {
        return None;
      }
      sent := Some(Message("animation", map["animation" := Text(animation)]));
    }
  }

  /** Two `connect` calls in a row, the second before the first settles,
      hand the transport exactly one join. */
  method ConnectTwiceJoinsOnce(s: Store, u1: string, u2: string, n1: nat, n2: nat)
    returns (first: Option<JoinRequest>, second: Option<JoinRequest>)
    requires s.connectionState == Disconnected || s.connectionState == Error
    modifies s
    ensures first.Some? && second.None?
    ensures s.connectionState == Connecting
  {
    first := s.Connect(u1, n1);
    second := s.Connect(u2, n2);
  }

  /** `disconnect` is idempotent: a second call finds no room and leaves
      the same state. */
  method DisconnectTwice(s: Store) returns (firstLeave: bool, secondLeave: bool)
    modifies s
    ensures !secondLeave
    ensures s.room == None && s.connectionState == Disconnected && s.error == None
    ensures s.client == old(s.client) && s.serverUrl == old(s.serverUrl)
  {
    firstLeave := s.Disconnect();
    secondLeave := s.Disconnect();
  }
}
