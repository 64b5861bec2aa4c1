/** The client helpers of src/lib/colyseus.ts: building the client, joining
    a room (split at its `await` into the request and the continuation),
    the room listeners that mirror server events into the room, local and
    remote stores, and the outbound state messages. */
module ColyseusLib {
  import opened Wrappers
  import opened ColyseusTypes
  import opened Transport
  import RoomStore
  import RemotePlayersStore
  import LocalPlayerStore
  import StorePorts
  import JsMap

  /** Used when the endpoint environment variable is unset or empty. */
  const FALLBACK_ENDPOINT: string := "ws://localhost:2567"

  /** `process.env.NEXT_PUBLIC_COLYSEUS_ENDPOINT || "ws://localhost:2567"`. */
  function Endpoint(env: Option<string>): (e: string)
    ensures env.Some? && env.value != "" ==> e == env.value
    ensures env.None? || env.value == "" ==> e == FALLBACK_ENDPOINT
    ensures e != ""
  {
    if env.Some? && env.value != "" then env.value else FALLBACK_ENDPOINT
  }

  /** The `PlayerData` type the listeners are declared to receive. */
  datatype PlayerData = PlayerData(
    id: string,
    username: string,
    x: real, y: real, z: real,
    rotationX: real, rotationY: real, rotationZ: real,
    isMoving: bool,
    animationState: string)

  /** What the add listener hands `addPlayer` for another player. */
  function AddedData(p: PlayerData, now: int): (d: RemotePlayersStore.PlayerData)
    ensures d.position == Vec3(p.x, p.y, p.z) && d.rotation == Vec3(p.rotationX, p.rotationY, p.rotationZ)
    ensures d.username == p.username && d.isMoving == p.isMoving && d.animationState == p.animationState
    ensures d.lastUpdate == now
  {
    RemotePlayersStore.PlayerData(Vec3(p.x, p.y, p.z), Vec3(p.rotationX, p.rotationY, p.rotationZ),
      p.username, p.isMoving, p.animationState, now)
  }

  /** What the change listener hands `updatePlayer`: pose, movement and
      animation, never the name. */
  function ChangePatch(p: PlayerData): (d: RemotePlayersStore.PlayerPatch)
    ensures d.username.None? && d.lastUpdate.None?
    ensures d.position == Some(Vec3(p.x, p.y, p.z))
    ensures d.rotation == Some(Vec3(p.rotationX, p.rotationY, p.rotationZ))
    ensures d.isMoving == Some(p.isMoving) && d.animationState == Some(p.animationState)
  {
    RemotePlayersStore.PlayerPatch(Some(Vec3(p.x, p.y, p.z)), Some(Vec3(p.rotationX, p.rotationY, p.rotationZ)),
      None, Some(p.isMoving), Some(p.animationState), None)
  }

  /** A change event never renames a remote player. */
  lemma ChangeKeepsUsername(ps: RemotePlayersStore.Players, id: string, p: PlayerData, now: int)
    requires JsMap.Get(ps, id).Some?
    ensures JsMap.Get(RemotePlayersStore.Updated(ps, id, ChangePatch(p), now), id).value.username
         == JsMap.Get(ps, id).value.username
  {
  }

  /** Decimal digits of a natural number, most significant first. */
  function NatToDecimal(n: nat): (s: string)
    ensures |s| > 0
    ensures forall i :: 0 <= i < |s| ==> '0' <= s[i] <= '9'
    decreases n
  {
    var d := [('0' as int + n % 10) as char];
    if n < 10 then d else NatToDecimal(n / 10) + d
  }

  /** The number a string of decimal digits denotes. */
  function DecimalValue(s: string): nat
    requires forall i :: 0 <= i < |s| ==> '0' <= s[i] <= '9'
  {
    if s == [] then 0 else 10 * DecimalValue(s[..|s| - 1]) + (s[|s| - 1] as int - '0' as int)
  }

  /** `String(n)` denotes `n`: the conversion loses nothing. */
  lemma {:induction false} DecimalRoundTrip(n: nat)
    ensures DecimalValue(NatToDecimal(n)) == n
    decreases n
  {
    var s := NatToDecimal(n);
    if n >= 10 {
      DecimalRoundTrip(n / 10);
      assert s[..|s| - 1] == NatToDecimal(n / 10);
    }
  }

  /** How a JavaScript template literal renders an integer. */
  function IntToDecimal(i: int): (s: string)
    ensures |s| > 0
  {
    if i < 0 then "-" + NatToDecimal(-i) else NatToDecimal(i)
  }

  /** The error the room-error listener records: `Error <code>: <message>`,
      with an absent message rendered as "undefined". */
  function RoomErrorMessage(code: int, message: Option<string>): (m: string)
    ensures m == "Error " + IntToDecimal(code) + ": " + message.GetOr("undefined")
    ensures m != "" && m[..6] == "Error "
  {
    "Error " + IntToDecimal(code) + ": " + message.GetOr("undefined")
  }

  /** A room error always moves the room store to `error`: the recorded
      message is never empty, so never falsy. */
  lemma RoomErrorAlwaysSetsErrorState(s: RoomStore.RoomState, code: int, message: Option<string>)
    ensures RoomStore.AfterSetError(s, Some(RoomErrorMessage(code, message))).connectionState == Error
  {
  }

  /** The message the join failure records. */
  function JoinErrorMessage(t: Thrown): (m: string)
    ensures t.ErrorObject? ==> m == t.message
    ensures t.OtherValue? ==> m == "Unknown error"
  {
    match t
    case ErrorObject(message) => message
    case OtherValue => "Unknown error"
  }

  /** A join that rejects with an empty-message `Error` leaves the room
      store `connecting`: the empty message is falsy, so `setError` does
      not move the state. */
  lemma EmptyJoinErrorStaysConnecting(s: RoomStore.RoomState)
    ensures var t := RoomStore.AfterSetConnectionState(s, Connecting);
      RoomStore.AfterSetError(t, Some(JoinErrorMessage(ErrorObject("")))).connectionState == Connecting
  {
  }

  /** `initializeColyseusClient()`: a new client for the configured
      endpoint, stored in the room store. */
  method InitializeColyseusClient(rooms: RoomStore.Store, env: Option<string>, serial: nat)
    returns (client: ClientHandle)
    modifies rooms
    ensures client == ClientHandle(Endpoint(env), serial)
    ensures rooms.Snapshot() == old(rooms.Snapshot()).(client := Some(client))
  {
    client := ClientHandle(Endpoint(env), serial);
    rooms.SetClient(client);
  }

  /** What `joinOrCreateRoom` hands the transport. */
  datatype JoinRequest = JoinRequest(client: ClientHandle, roomName: string, options: map<string, Value>)

  /** The part of `joinOrCreateRoom` before its `await`. */
  method JoinOrCreateRoom(rooms: RoomStore.Store, client: ClientHandle, roomName: string,
                          options: map<string, Value> := map[])
    returns (request: JoinRequest)
    modifies rooms
    ensures request == JoinRequest(client, roomName, options)
    ensures rooms.Snapshot() == RoomStore.AfterSetConnectionState(old(rooms.Snapshot()), Connecting)
  {
    rooms.SetConnectionState(Connecting);
    request := JoinRequest(client, roomName, options);
  }

  /** The continuation of `joinOrCreateRoom` once the join settles: the
      room is stored and returned, or the error is recorded and re-thrown. */
  method JoinSettled(rooms: RoomStore.Store, outcome: JoinOutcome)
    returns (result: Result<RoomHandle, Thrown>)
    modifies rooms
    ensures outcome.Joined? ==>
      result == Success(outcome.room)
      && rooms.Snapshot() == RoomStore.AfterSetRoom(old(rooms.Snapshot()), Some(outcome.room))
    ensures outcome.Rejected? ==>
      result == Failure(outcome.thrown)
      && rooms.Snapshot() == RoomStore.AfterSetError(old(rooms.Snapshot()), Some(JoinErrorMessage(outcome.thrown)))
  {
    match outcome
    case Joined(room) =>
      rooms.SetRoom(Some(room));
      result := Success(room);
    case Rejected(t) =>
      rooms.SetError(Some(JoinErrorMessage(t)));
      result := Failure(t);
  }

  /** The players `onAdd` listener: this client's own entry sets the local
      id and name; any other becomes a new remote-player entry. */
  method OnPlayerAdd(room: RoomHandle, player: PlayerData, sessionId: string, now: int,
                     local: LocalPlayerStore.Store, ids: StorePorts.LocalIdPort,
                     remote: RemotePlayersStore.Store)
    requires remote.Inv()
    modifies local, ids, remote
    ensures sessionId == room.sessionId ==>
      && ids.id == sessionId
      && local.Snapshot() == old(local.Snapshot()).(username := player.username)
      && remote.players.entries == old(remote.players.entries)
    ensures sessionId != room.sessionId ==>
      && remote.players.entries == RemotePlayersStore.Added(old(remote.players.entries), sessionId, AddedData(player, now), now)
      && ids.id == old(ids.id) && local.Snapshot() == old(local.Snapshot())
    ensures remote.Inv()
  {
    if sessionId == room.sessionId {
      ids.SetId(sessionId);
      local.SetUsername(player.username);
      return;
    }
    remote.AddPlayer(sessionId, AddedData(player, now), now);
  }

  /** The players `onChange` listener: this client's own entry is ignored. */
  method OnPlayerChange(room: RoomHandle, player: PlayerData, sessionId: string, now: int,
                        remote: RemotePlayersStore.Store)
    requires remote.Inv()
    modifies remote
    ensures sessionId == room.sessionId ==> remote.players.entries == old(remote.players.entries)
    ensures sessionId != room.sessionId ==>
      remote.players.entries == RemotePlayersStore.Updated(old(remote.players.entries), sessionId, ChangePatch(player), now)
    ensures remote.Inv()
  {
    if sessionId == room.sessionId {
      return;
    }
    remote.UpdatePlayer(sessionId, ChangePatch(player), now);
  }

  /** The players `onRemove` listener; it does not filter this client. */
  method OnPlayerRemove(sessionId: string, remote: RemotePlayersStore.Store)
    requires remote.Inv()
    modifies remote
    ensures remote.players.entries == RemotePlayersStore.Removed(old(remote.players.entries), sessionId)
    ensures remote.Inv()
  {
    remote.RemovePlayer(sessionId);
  }

  /** The room's `onError` listener. */
  method OnRoomError(code: int, message: Option<string>, rooms: RoomStore.Store)
    modifies rooms
    ensures rooms.Snapshot() == RoomStore.AfterSetError(old(rooms.Snapshot()), Some(RoomErrorMessage(code, message)))
    ensures rooms.connectionState == Error
  {
    rooms.SetError(Some(RoomErrorMessage(code, message)));
  }

  /** The room's `onLeave` listener: disconnected, and every remote player
      forgotten. */
  method OnRoomLeave(code: int, rooms: RoomStore.Store, remote: RemotePlayersStore.Store)
    modifies rooms, remote
    ensures rooms.Snapshot() == RoomStore.AfterSetConnectionState(old(rooms.Snapshot()), Disconnected)
    ensures remote.players.entries == [] && remote.Inv()
  {
    rooms.SetConnectionState(Disconnected);
    remote.ClearAll();
  }

  /** `sendPlayerPosition(room, position)`. */
  function PositionMessage(p: Vec3): (m: Message)
    ensures m.name == "updatePosition" && m.payload.Keys == {"x", "y", "z"}
    ensures m.payload["x"] == Num(p.x) && m.payload["y"] == Num(p.y) && m.payload["z"] == Num(p.z)
  {
    Message("updatePosition", map["x" := Num(p.x), "y" := Num(p.y), "z" := Num(p.z)])
  }

  /** `sendPlayerRotation(room, rotation)`. */
  function RotationMessage(r: Vec3): (m: Message)
    ensures m.name == "updateRotation" && m.payload.Keys == {"x", "y", "z"}
    ensures m.payload["x"] == Num(r.x) && m.payload["y"] == Num(r.y) && m.payload["z"] == Num(r.z)
  {
    Message("updateRotation", map["x" := Num(r.x), "y" := Num(r.y), "z" := Num(r.z)])
  }

  /** The optional fields `sendPlayerState` is given. */
  datatype StateUpdate = StateUpdate(
    position: Option<Vec3>,
    rotation: Option<Vec3>,
    isMoving: Option<bool>,
    animationState: Option<string>)

  /** `sendPlayerState(room, data)`: the payload carries x/y/z exactly when
      a position is given, rotationX/Y/Z exactly when a rotation is given,
      `isMoving` whenever it is defined (false included), and
      `animationState` only when it is a non-empty string. */
  method SendPlayerState(data: StateUpdate) returns (sent: Message)
    ensures sent.name == "updatePlayer"
    ensures "x" in sent.payload <==> data.position.Some?
    ensures "y" in sent.payload <==> data.position.Some?
    ensures "z" in sent.payload <==> data.position.Some?
    ensures data.position.Some? ==>
      sent.payload["x"] == Num(data.position.value.x) && sent.payload["y"] == Num(data.position.value.y)
      && sent.payload["z"] == Num(data.position.value.z)
    ensures "rotationX" in sent.payload <==> data.rotation.Some?
    ensures "rotationY" in sent.payload <==> data.rotation.Some?
    ensures "rotationZ" in sent.payload <==> data.rotation.Some?
    ensures data.rotation.Some? ==>
      sent.payload["rotationX"] == Num(data.rotation.value.x) && sent.payload["rotationY"] == Num(data.rotation.value.y)
      && sent.payload["rotationZ"] == Num(data.rotation.value.z)
    ensures "isMoving" in sent.payload <==> data.isMoving.Some?
    ensures data.isMoving.Some? ==> sent.payload["isMoving"] == Flag(data.isMoving.value)
    ensures "animationState" in sent.payload <==> data.animationState.Some? && data.animationState.value != ""
    ensures "animationState" in sent.payload ==> sent.payload["animationState"] == Text(data.animationState.value)
    ensures sent.payload.Keys <= {"x", "y", "z", "rotationX", "rotationY", "rotationZ", "isMoving", "animationState"}
  {
    var payload: map<string, Value> := map[];
    if data.position.Some? {
      payload := payload["x" := Num(data.position.value.x)];
      payload := payload["y" := Num(data.position.value.y)];
      payload := payload["z" := Num(data.position.value.z)];
    }
    if data.rotation.Some? {
      payload := payload["rotationX" := Num(data.rotation.value.x)];
      payload := payload["rotationY" := Num(data.rotation.value.y)];
      payload := payload["rotationZ" := Num(data.rotation.value.z)];
    }
    if data.isMoving.Some? {
      payload := payload["isMoving" := Flag(data.isMoving.value)];
    }
    if data.animationState.Some? && data.animationState.value != "" {
      payload := payload["animationState" := Text(data.animationState.value)];
    }
    sent := Message("updatePlayer", payload);
  }

  /** `leaveRoom()` up to its `await`: the room store's `disconnect()` is
      started. It returns the room whose `leave()` is now pending, if any;
      with no room the room store has already reset its fields. */
  method LeaveRoom(rooms: RoomStore.Store) returns (leaving: Option<RoomHandle>)
    modifies rooms
    ensures leaving == old(rooms.room)
    ensures leaving.None? ==> rooms.Snapshot() == RoomStore.AfterDisconnect(old(rooms.Snapshot()))
    ensures leaving.Some? ==> rooms.Snapshot() == old(rooms.Snapshot())
  {
    leaving := rooms.Disconnect();
  }

  /** The continuation of `leaveRoom()` once `disconnect()` has settled
      (it never rejects: a failing leave is caught inside): every remote
      player is dropped, including any added while it was pending. */
  method LeaveRoomSettled(remote: RemotePlayersStore.Store)
    modifies remote
    ensures remote.players.entries == [] && remote.Inv()
  {
    remote.ClearAll();
  }

  /** `leaveRoom()` with its steps in order: the room store ends
      disconnected, whether or not the leave rejected, and the registry
      ends empty. */
  method LeaveRoomInOrder(rooms: RoomStore.Store, remote: RemotePlayersStore.Store)
    modifies rooms, remote
    ensures rooms.Snapshot() == RoomStore.AfterDisconnect(old(rooms.Snapshot()))
    ensures remote.players.entries == [] && remote.Inv()
  {
    var leaving := LeaveRoom(rooms);
    if leaving.Some? {
      rooms.LeaveSettled();
    }
    LeaveRoomSettled(remote);
  }

  /** A player the room announces while the leave is pending is dropped by
      the `clearAll` that follows. */
  method PlayerAddedDuringLeaveIsWiped(rooms: RoomStore.Store, remote: RemotePlayersStore.Store,
                                       room: RoomHandle, player: PlayerData, sessionId: string, now: int,
                                       local: LocalPlayerStore.Store, ids: StorePorts.LocalIdPort)
    requires remote.Inv() && rooms.room == Some(room) && sessionId != room.sessionId
    modifies rooms, remote, local, ids
    ensures rooms.room == None && !rooms.isConnected && rooms.connectionState == Disconnected
    ensures remote.players.entries == []
  {
    var leaving := LeaveRoom(rooms);
    OnPlayerAdd(room, player, sessionId, now, local, ids, remote);
    assert JsMap.Get(remote.players.entries, sessionId).Some?;
    rooms.LeaveSettled();
    LeaveRoomSettled(remote);
  }
}
